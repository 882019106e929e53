/**
 * The web client's request slots and response parsing (web/web.c). Each
 * request type owns one slot with an active/complete lifecycle: a request is
 * issued only on an inactive slot, the HTTP result callback marks it complete
 * (status 200) or clears it, and the response readers consume it. The Wi-Fi
 * link and the HTTP transport are not modelled: a response body arrives as an
 * event that stores it in the slot.
 */
module Web {
  import opened Wrappers
  import opened CStrings

  const DeviceSerial: string := "RX-AR2023-0001"
  const PropertyDelim: char := ';'
  const ValueDelim: char := ':'
  const HttpOk: int := 200

  datatype RequestType = CheckSchedule | LogDelivery | RetrieveDoseStats | GetUserLocation

  /** `struct Web_Request`: the fields the code reads and writes. */
  datatype Slot = Slot(kind: RequestType, active: bool, complete: bool, body: string, headers: string)

  /** A slot reset so that a new request can be made. */
  function Cleared(s: Slot): (r: Slot)
    ensures r.kind == s.kind && !r.active && !r.complete && r.body == [] && r.headers == []
  {
    s.(active := false, complete := false, body := "", headers := "")
  }

  // ---------------------------------------------------------------------
  // Request paths
  // ---------------------------------------------------------------------

  const CheckSchedulePath: string := "/check_schedule/device/" + DeviceSerial
  const GetUserLocationPath: string := "/get_user_location/device/" + DeviceSerial
  const LogDeliveryPrefix: string := "/log_delivery/device/" + DeviceSerial + "/schedule_id/"
  const RetrieveDoseStatsPrefix: string := "/retrieve_dose_stats/schedule_id/"

  /** The path `web_request_log_delivery` builds for a schedule id. */
  function LogDeliveryPath(scheduleId: int): (p: string)
    ensures |p| > |LogDeliveryPrefix| && p[..|LogDeliveryPrefix|] == LogDeliveryPrefix
    ensures scheduleId < 0 <==> p[|LogDeliveryPrefix|] == '-'
  {
    LogDeliveryPrefix + FormatInt(scheduleId)
  }

  /** The path `web_request_retrieve_dose_stats` builds for a schedule id. */
  function RetrieveDoseStatsPath(scheduleId: int): (p: string)
    ensures |p| > |RetrieveDoseStatsPrefix| && p[..|RetrieveDoseStatsPrefix|] == RetrieveDoseStatsPrefix
    ensures scheduleId < 0 <==> p[|RetrieveDoseStatsPrefix|] == '-'
  {
    RetrieveDoseStatsPrefix + FormatInt(scheduleId)
  }

  /** The schedule id can be read back from a log-delivery path, so distinct
      ids give distinct paths. */
  lemma LogDeliveryPathRoundTrip(id: int, other: int)
    ensures LogDeliveryPath(id)[..|LogDeliveryPrefix|] == LogDeliveryPrefix
    ensures Atoi(LogDeliveryPath(id)[|LogDeliveryPrefix|..]) == id
    ensures LogDeliveryPath(id) == LogDeliveryPath(other) ==> id == other
  {
    var p := LogDeliveryPath(id);
    assert p[|LogDeliveryPrefix|..] == FormatInt(id) + "";
    AtoiOfFormatInt(id, "");
    if p == LogDeliveryPath(other) {
      assert FormatInt(id) == FormatInt(other) by {
        assert FormatInt(other) == LogDeliveryPath(other)[|LogDeliveryPrefix|..];
      }
      FormatIntInjective(id, other);
    }
  }

  /** The same for the dose-statistics path. */
  lemma RetrieveDoseStatsPathRoundTrip(id: int, other: int)
    ensures RetrieveDoseStatsPath(id)[..|RetrieveDoseStatsPrefix|] == RetrieveDoseStatsPrefix
    ensures Atoi(RetrieveDoseStatsPath(id)[|RetrieveDoseStatsPrefix|..]) == id
    ensures RetrieveDoseStatsPath(id) == RetrieveDoseStatsPath(other) ==> id == other
  {
    var p := RetrieveDoseStatsPath(id);
    assert p[|RetrieveDoseStatsPrefix|..] == FormatInt(id) + "";
    AtoiOfFormatInt(id, "");
    if p == RetrieveDoseStatsPath(other) {
      assert FormatInt(id) == FormatInt(other) by {
        assert FormatInt(other) == RetrieveDoseStatsPath(other)[|RetrieveDoseStatsPrefix|..];
      }
      FormatIntInjective(id, other);
    }
  }

  // ---------------------------------------------------------------------
  // The check-schedule response body: "UserID:<u>;ScheduleID:<s>"
  // ---------------------------------------------------------------------

  /** The (user id, schedule id) pair `web_response_check_schedule` extracts:
      the schedule id is `atoi` of the text after the first ':' that follows the
      first ';', the user id `atoi` of the text after the ':' of the first
      ';'-token. None where the code would dereference a null pointer (no ';',
      no token, or no ':' where one is looked for). */
  function ParseCheckSchedule(body: string): (r: Option<(int, int)>)
    ensures r.Some? ==> exists i :: 0 <= i < |body| && body[i] == PropertyDelim
  {
    var semi := FindChar(body, PropertyDelim);
    var token := FirstToken(body, PropertyDelim);
    if semi.None? || token.None? then None
    else
      var scheduleChunk := body[semi.value..];
      var userColon := FindChar(token.value, ValueDelim);
      var scheduleColon := FindChar(scheduleChunk, ValueDelim);
      if userColon.None? || scheduleColon.None? then None
      else Some((Atoi(token.value[userColon.value + 1..]), Atoi(scheduleChunk[scheduleColon.value + 1..])))
  }

  /** The body the server sends for a user and a schedule. */
  function CheckScheduleBody(userId: int, scheduleId: int): string
  {
    UserProperty(userId) + ScheduleProperty(scheduleId)
  }

  function UserProperty(userId: int): string
  {
    "UserID:" + FormatInt(userId)
  }

  function ScheduleProperty(scheduleId: int): string
  {
    ";ScheduleID:" + FormatInt(scheduleId)
  }

  lemma FormatIntHasNoDelims(n: int)
    ensures forall k :: 0 <= k < |FormatInt(n)| ==> FormatInt(n)[k] != PropertyDelim && FormatInt(n)[k] != ValueDelim
  {
    var s := FormatInt(n);
    if n < 0 {
      assert forall k :: 1 <= k < |s| ==> s[k] == FormatNat(-n)[k - 1];
    }
  }

  /** A well-formed body yields both ids exactly. */
  lemma ParseCheckScheduleBody(userId: int, scheduleId: int)
    ensures ParseCheckSchedule(CheckScheduleBody(userId, scheduleId)) == Some((userId, scheduleId))
  {
    var a := UserProperty(userId);
    var b := ScheduleProperty(scheduleId);
    var body := CheckScheduleBody(userId, scheduleId);
    UserChunk(userId);
    ScheduleChunk(scheduleId);
    FindCharFirst(body, PropertyDelim, |a|);
    assert body[|a|..] == b;
    assert body[..|a|] == a;
    FirstTokenUpTo(body, PropertyDelim, |a|);
    ParseSteps(body, |a|, a, 6, 11);
  }

  /** The first token of a string that does not start with the delimiter ends at its first delimiter. */
  lemma FirstTokenUpTo(s: string, d: char, i: nat)
    requires 0 < i < |s| && s[0] != d
    requires FindChar(s, d) == Some(i)
    ensures FirstToken(s, d) == Some(s[..i])
  {
  }

  lemma ParseSteps(body: string, i: nat, userChunk: string, j: nat, k: nat)
    requires FindChar(body, PropertyDelim) == Some(i)
    requires FirstToken(body, PropertyDelim) == Some(userChunk)
    requires FindChar(userChunk, ValueDelim) == Some(j)
    requires FindChar(body[i..], ValueDelim) == Some(k)
    ensures ParseCheckSchedule(body) == Some((Atoi(userChunk[j + 1..]), Atoi(body[i..][k + 1..])))
  {
  }

  /** The user chunk "UserID:<u>" has no ';', and its value after the ':' is u. */
  lemma UserChunk(userId: int)
    ensures var a := UserProperty(userId);
            a[0] == 'U' && (forall k :: 0 <= k < |a| ==> a[k] != PropertyDelim) &&
            FindChar(a, ValueDelim) == Some(6) && Atoi(a[7..]) == userId
  {
    var u := FormatInt(userId);
    var a := "UserID:" + u;
    FormatIntHasNoDelims(userId);
    assert forall k :: 7 <= k < |a| ==> a[k] == u[k - 7];
    FindCharFirst(a, ValueDelim, 6);
    assert a[7..] == u + "";
    AtoiOfFormatInt(userId, "");
  }

  /** The schedule chunk ";ScheduleID:<s>" has its ':' at 11 and its value after it is s. */
  lemma ScheduleChunk(scheduleId: int)
    ensures var b := ScheduleProperty(scheduleId);
            b[0] == PropertyDelim && FindChar(b, ValueDelim) == Some(11) && Atoi(b[12..]) == scheduleId
  {
    var s := FormatInt(scheduleId);
    var b := ";ScheduleID:" + s;
    FindCharFirst(b, ValueDelim, 11);
    assert b[12..] == s + "";
    AtoiOfFormatInt(scheduleId, "");
  }

  // ---------------------------------------------------------------------
  // The slot table and its events
  // ---------------------------------------------------------------------

  class WebClient {
    /** WEB_CLIENT_REQUEST_URL, the base every request path is appended to. */
    const requestUrl: string
    /** `requests`: one slot per request type. */
    var requests: map<RequestType, Slot>

    ghost predicate Valid()
      reads this
    {
      CheckSchedule in requests && LogDelivery in requests &&
      RetrieveDoseStats in requests && GetUserLocation in requests
    }

    /** The zero-initialised slot table. */
    constructor (requestUrl: string)
      ensures Valid() && this.requestUrl == requestUrl
      ensures forall t :: t in requests ==>
                !requests[t].active && !requests[t].complete && requests[t].body == [] && requests[t].headers == []
    {
      this.requestUrl := requestUrl;
      requests := map[CheckSchedule := Slot(CheckSchedule, false, false, "", ""),
                      LogDelivery := Slot(CheckSchedule, false, false, "", ""),
                      RetrieveDoseStats := Slot(CheckSchedule, false, false, "", ""),
                      GetUserLocation := Slot(CheckSchedule, false, false, "", "")];
    }

    /** The slot setup of `web_init`: the check-schedule, log-delivery and
        dose-statistics slots are made inactive with empty body and headers;
        the block meant for the user-location slot rewrites the
        dose-statistics slot instead, leaving it typed as a user-location
        request. `complete` is not touched. */
    method Init()
      requires Valid()
      modifies this
      ensures Valid()
      ensures var o := old(requests);
              requests == o[CheckSchedule := o[CheckSchedule].(kind := CheckSchedule, active := false, body := "", headers := "")]
                           [LogDelivery := o[LogDelivery].(kind := LogDelivery, active := false, body := "", headers := "")]
                           [RetrieveDoseStats := o[RetrieveDoseStats].(kind := GetUserLocation, active := false, body := "", headers := "")]
    {
      var t := CheckSchedule;
      requests := requests[t := requests[t].(kind := CheckSchedule, active := false, body := "", headers := "")];
      t := LogDelivery;
      requests := requests[t := requests[t].(kind := LogDelivery, active := false, body := "", headers := "")];
      t := RetrieveDoseStats;
      requests := requests[t := requests[t].(kind := RetrieveDoseStats, active := false, body := "", headers := "")];
      // the user-location block indexes the dose-statistics slot
      requests := requests[t := requests[t].(kind := GetUserLocation, active := false, body := "", headers := "")];
    }

    /** `web_request`: on an inactive slot, mark it active and issue a GET of
        the base URL followed by `uriParams` (the returned URI); on an active
        slot, do nothing. */
    method Request(uriParams: string, t: RequestType) returns (issued: Option<string>)
      requires Valid()
      modifies this
      ensures Valid()
      ensures old(requests[t].active) ==> requests == old(requests) && issued == None
      ensures !old(requests[t].active) ==>
                requests == old(requests)[t := old(requests[t]).(active := true)] &&
                issued == Some(requestUrl + uriParams)
    {
      if !requests[t].active {
        requests := requests[t := requests[t].(active := true)];
        issued := Some(requestUrl + uriParams);
      } else {
        issued := None;
      }
    }

    /** `web_request_check_schedule` */
    method RequestCheckSchedule() returns (issued: Option<string>)
      requires Valid()
      modifies this
      ensures Valid()
      ensures old(requests[CheckSchedule].active) ==> requests == old(requests) && issued == None
      ensures !old(requests[CheckSchedule].active) ==>
                requests == old(requests)[CheckSchedule := old(requests[CheckSchedule]).(active := true)] &&
                issued == Some(requestUrl + CheckSchedulePath)
    {
      issued := Request(CheckSchedulePath, CheckSchedule);
    }

    /** `web_request_log_delivery` */
    method RequestLogDelivery(scheduleId: int) returns (issued: Option<string>)
      requires Valid()
      modifies this
      ensures Valid()
      ensures old(requests[LogDelivery].active) ==> requests == old(requests) && issued == None
      ensures !old(requests[LogDelivery].active) ==>
                requests == old(requests)[LogDelivery := old(requests[LogDelivery]).(active := true)] &&
                issued == Some(requestUrl + LogDeliveryPath(scheduleId))
    {
      issued := Request(LogDeliveryPath(scheduleId), LogDelivery);
    }

    /** `web_request_retrieve_dose_stats` */
    method RequestRetrieveDoseStats(scheduleId: int) returns (issued: Option<string>)
      requires Valid()
      modifies this
      ensures Valid()
      ensures old(requests[RetrieveDoseStats].active) ==> requests == old(requests) && issued == None
      ensures !old(requests[RetrieveDoseStats].active) ==>
                requests == old(requests)[RetrieveDoseStats := old(requests[RetrieveDoseStats]).(active := true)] &&
                issued == Some(requestUrl + RetrieveDoseStatsPath(scheduleId))
    {
      issued := Request(RetrieveDoseStatsPath(scheduleId), RetrieveDoseStats);
    }

    /** `web_request_get_user_location` */
    method RequestGetUserLocation() returns (issued: Option<string>)
      requires Valid()
      modifies this
      ensures Valid()
      ensures old(requests[GetUserLocation].active) ==> requests == old(requests) && issued == None
      ensures !old(requests[GetUserLocation].active) ==>
                requests == old(requests)[GetUserLocation := old(requests[GetUserLocation]).(active := true)] &&
                issued == Some(requestUrl + GetUserLocationPath)
    {
      issued := Request(GetUserLocationPath, GetUserLocation);
    }

    /** `body_callback`: the response body is copied into the request's slot. */
    method ReceiveBody(t: RequestType, body: string)
      requires Valid()
      modifies this
      ensures Valid()
      ensures requests == old(requests)[t := old(requests[t]).(body := body)]
    {
      requests := requests[t := requests[t].(body := body)];
    }

    /** `result_callback`: status 200 marks the slot complete; any other status
        clears the slot so that the request can be made again. */
    method ResultCallback(t: RequestType, status: int)
      requires Valid()
      modifies this
      ensures Valid()
      ensures status == HttpOk ==> requests == old(requests)[t := old(requests[t]).(complete := true)]
      ensures status != HttpOk ==> requests == old(requests)[t := Cleared(old(requests[t]))]
    {
      if status == HttpOk {
        requests := requests[t := requests[t].(complete := true)];
      } else {
        requests := requests[t := requests[t].(active := false)];
        requests := requests[t := requests[t].(headers := "")];
        requests := requests[t := requests[t].(body := "")];
        requests := requests[t := requests[t].(complete := false)];
      }
    }

    /** `web_response_check_schedule`: when the check-schedule slot is active
        and complete, return the schedule id of its body and clear the slot;
        otherwise return -1 and change nothing. The body must then hold a ';'
        with a ':' after it and a first token with a ':', as the code
        dereferences a null pointer otherwise. */
    method ResponseCheckSchedule() returns (r: int)
      requires Valid()
      requires requests[CheckSchedule].active && requests[CheckSchedule].complete ==>
                 ParseCheckSchedule(requests[CheckSchedule].body).Some?
      modifies this
      ensures Valid()
      ensures var o := old(requests[CheckSchedule]);
              if o.active && o.complete then
                r == ParseCheckSchedule(o.body).value.1 && requests == old(requests)[CheckSchedule := Cleared(o)]
              else
                r == -1 && requests == old(requests)
    {
      var t := CheckSchedule;
      if requests[t].active && requests[t].complete {
        var ids := ParseCheckSchedule(requests[t].body).value;
        var userIdValue := ids.0;
        var scheduleIdValue := ids.1;
        requests := requests[t := requests[t].(active := false)];
        requests := requests[t := requests[t].(headers := "")];
        requests := requests[t := requests[t].(body := "")];
        requests := requests[t := requests[t].(complete := false)];
        return scheduleIdValue;
      }
      return -1;
    }

    /** `web_response_retrieve_dose_stats`: `atoi` of the body when the slot is
        active and complete, -1 otherwise; the slot is never reset. */
    method ResponseRetrieveDoseStats() returns (r: int)
      requires Valid()
      ensures var s := requests[RetrieveDoseStats];
              r == if s.active && s.complete then Atoi(s.body) else -1
    {
      var t := RetrieveDoseStats;
      if requests[t].active && requests[t].complete {
        return Atoi(requests[t].body);
      }
      return -1;
    }
  }

  /** The whole check-schedule exchange: the request, a 200 result, the body
      "UserID:<u>;ScheduleID:<s>", then reading the response, gives back s and
      leaves the slot free for the next request. */
  method CheckScheduleExchange(requestUrl: string, userId: int, scheduleId: int) returns (r: int, again: Option<string>)
    ensures r == scheduleId
    ensures again == Some(requestUrl + CheckSchedulePath)
  {
    var client := new WebClient(requestUrl);
    client.Init();
    var issued := client.RequestCheckSchedule();
    client.ReceiveBody(CheckSchedule, CheckScheduleBody(userId, scheduleId));
    client.ResultCallback(CheckSchedule, HttpOk);
    ParseCheckScheduleBody(userId, scheduleId);
    r := client.ResponseCheckSchedule();
    again := client.RequestCheckSchedule();
  }

  /** The dose-statistics response is not consumed: reading it twice gives the
      same count, and a failed request leaves -1. */
  method DoseStatsExchange(requestUrl: string, scheduleId: int, doses: int, status: int) returns (first: int, second: int)
    ensures status == HttpOk ==> first == doses && second == doses
    ensures status != HttpOk ==> first == -1 && second == -1
  {
    var client := new WebClient(requestUrl);
    client.Init();
    var issued := client.RequestRetrieveDoseStats(scheduleId);
    client.ReceiveBody(RetrieveDoseStats, FormatInt(doses));
    client.ResultCallback(RetrieveDoseStats, status);
    AtoiOfFormatInt(doses, "");
    assert FormatInt(doses) + "" == FormatInt(doses);
    first := client.ResponseRetrieveDoseStats();
    second := client.ResponseRetrieveDoseStats();
  }
}
