/** The dashboard data hook (`useDashboardData`): three filters, the session
    token, and the `{data, loading, error}` view. A fetch is split at its
    suspension point: `FetchDashboard` runs up to the request being issued and
    returns it, `Complete` applies the reply when it arrives. Requests carry no
    generation tag, so whichever reply completes last is what the view shows. */
module DashboardData {
  import opened Common

  const StatsEndpoint: string := "http://localhost:8000/api/dashboard/stats"

  /** An issued request: the endpoint, the query parameters in the order they
      were appended, and the headers. */
  datatype Request = Request(endpoint: string, query: seq<(string, string)>, headers: seq<(string, string)>)

  /** What a request ends with. */
  datatype DashboardReply =
    | Ok(body: Json)                      // a 2xx reply with a JSON body
    | NotOk(errorField: Option<string>)   // a non-2xx reply; its JSON body's `error` field, if any
    | Thrown(message: string)             // the fetch was rejected, or the body was not JSON

  /** The part of the hook's state a view shows. */
  datatype View = View(data: Option<Json>, loading: bool, error: string)

  /** The token as the hook tests it: null and "" are falsy. */
  predicate HasToken(token: Option<string>) {
    token.Some? && token.value != ""
  }

  function Keys(query: seq<(string, string)>): seq<string> {
    seq(|query|, i requires 0 <= i < |query| => query[i].0)
  }

  /** The query parameters: region, district and time filter, in that order, each
      present exactly when its value is not empty and then carrying that value. */
  function QueryFor(region: string, district: string, timeFilter: string): (q: seq<(string, string)>)
    ensures forall i :: 0 <= i < |q| ==> q[i].1 != ""
    ensures ("region", region) in q <==> region != ""
    ensures ("district", district) in q <==> district != ""
    ensures ("timeFilter", timeFilter) in q <==> timeFilter != ""
    ensures forall v :: ("region", v) in q ==> v == region
    ensures forall v :: ("district", v) in q ==> v == district
    ensures forall v :: ("timeFilter", v) in q ==> v == timeFilter
    ensures IsSubsequence(Keys(q), ["region", "district", "timeFilter"])
  {
    (if region != "" then [("region", region)] else [])
    + (if district != "" then [("district", district)] else [])
    + (if timeFilter != "" then [("timeFilter", timeFilter)] else [])
  }

  /** A filter left empty sends no parameter under its key at all. */
  lemma EmptyFilterIsLeftOut(region: string, district: string, timeFilter: string, v: string)
    ensures region == "" ==> ("region", v) !in QueryFor(region, district, timeFilter)
    ensures district == "" ==> ("district", v) !in QueryFor(region, district, timeFilter)
    ensures timeFilter == "" ==> ("timeFilter", v) !in QueryFor(region, district, timeFilter)
  {
  }

  /** The headers of every issued request. */
  function AuthHeaders(token: string): (h: seq<(string, string)>)
    ensures ("Authorization", "Bearer " + token) in h
  {
    [("Authorization", "Bearer " + token), ("Content-Type", "application/json")]
  }

  /** The message shown for a failed request. */
  function ErrorText(reply: DashboardReply): (t: string)
    requires !reply.Ok?
    ensures reply.NotOk? && (reply.errorField.None? || reply.errorField.value == "") ==> t == "Failed to load dashboard"
    ensures reply.NotOk? && reply.errorField.Some? && reply.errorField.value != "" ==> t == reply.errorField.value
    ensures reply.Thrown? ==> t == reply.message
  {
    match reply
    case NotOk(field) => if field.Some? && field.value != "" then field.value else "Failed to load dashboard"
    case Thrown(message) => message
  }

  /** The view once a reply has been applied: it depends on that reply alone. */
  function Settled(reply: DashboardReply): (v: View)
    ensures !v.loading
    ensures v.data.Some? <==> reply.Ok?
    ensures reply.Ok? ==> v.data == Some(reply.body) && v.error == ""
    ensures !reply.Ok? ==> v.error == ErrorText(reply)
  {
    if reply.Ok? then View(Some(reply.body), false, "") else View(None, false, ErrorText(reply))
  }

  /** The filters as first rendered send the default time filter "all" and
      nothing else; a region and a time filter are sent in that order. */
  lemma QueryExamples()
    ensures QueryFor("", "", "all") == [("timeFilter", "all")]
    ensures QueryFor("North", "", "week") == [("region", "North"), ("timeFilter", "week")]
  {
  }

  /** A region chosen with the other filters at their initial values. */
  lemma RegionWithDefaultFilter(region: string)
    requires region != ""
    ensures QueryFor(region, "", "all") == [("region", region), ("timeFilter", "all")]
  {
  }

  class Dashboard {
    var data: Option<Json>
    var region: string
    var district: string
    var timeFilter: string
    var loading: bool
    var error: string
    /** The session token the hook read on its last render. */
    var token: Option<string>

    function CurrentView(): View
      reads this
    {
      View(data, loading, error)
    }

    constructor (token: Option<string>)
      ensures data == None && region == "" && district == "" && timeFilter == "all"
      ensures loading && error == "" && this.token == token
    {
      data := None;
      region, district, timeFilter := "", "", "all";
      loading, error := true, "";
      this.token := token;
    }

    /** `fetchDashboard` up to its suspension point. Without a token nothing is
        issued, the view reports "Not authenticated" and `finally` clears
        `loading`; otherwise the request is issued and `loading` stays set until
        a reply completes. */
    method FetchDashboard() returns (req: Option<Request>)
      modifies this
      ensures region == old(region) && district == old(district) && timeFilter == old(timeFilter) && token == old(token)
      ensures req.None? <==> !HasToken(token)
      ensures req.None? ==> CurrentView() == View(None, false, "Not authenticated")
      ensures req.Some? ==>
        && req.value == Request(StatsEndpoint, QueryFor(region, district, timeFilter), AuthHeaders(token.value))
        && CurrentView() == old(CurrentView()).(loading := true)
    {
      loading := true;
      if !HasToken(token) {
        error := "Not authenticated";
        data := None;
        loading := false;
        return None;
      }
      var params: seq<(string, string)> := [];
      if region != "" {
        params := params + [("region", region)];
      }
      assert params == (if region != "" then [("region", region)] else []);
      if district != "" {
        params := params + [("district", district)];
      }
      assert params == (if region != "" then [("region", region)] else [])
        + (if district != "" then [("district", district)] else []);
      if timeFilter != "" {
        params := params + [("timeFilter", timeFilter)];
      }
      assert params == QueryFor(region, district, timeFilter);
      req := Some(Request(StatsEndpoint, params, [("Authorization", "Bearer " + token.value), ("Content-Type", "application/json")]));
    }

    /** A reply arrives for some issued request, whichever it was. */
    method Complete(reply: DashboardReply)
      modifies this
      ensures CurrentView() == Settled(reply)
      ensures region == old(region) && district == old(district) && timeFilter == old(timeFilter) && token == old(token)
    {
      if reply.Ok? {
        data := Some(reply.body);
        error := "";
      } else {
        error := ErrorText(reply);
        data := None;
      }
      loading := false;
    }

    /** `setRegion(value)`: a new value re-runs the fetch effect, an equal one
        does nothing. */
    method SetRegion(value: string) returns (triggered: bool, req: Option<Request>)
      modifies this
      ensures triggered == (value != old(region)) && region == value
      ensures district == old(district) && timeFilter == old(timeFilter) && token == old(token)
      ensures !triggered ==> req.None? && CurrentView() == old(CurrentView())
      ensures triggered ==> (req.None? <==> !HasToken(token))
      ensures triggered && req.None? ==> CurrentView() == View(None, false, "Not authenticated")
      ensures triggered && req.Some? ==>
        && req.value == Request(StatsEndpoint, QueryFor(region, district, timeFilter), AuthHeaders(token.value))
        && CurrentView() == old(CurrentView()).(loading := true)
    {
      triggered := value != region;
      req := None;
      if triggered {
        region := value;
        req := FetchDashboard();
      }
    }

    /** `setDistrict(value)`, as `SetRegion`. */
    method SetDistrict(value: string) returns (triggered: bool, req: Option<Request>)
      modifies this
      ensures triggered == (value != old(district)) && district == value
      ensures region == old(region) && timeFilter == old(timeFilter) && token == old(token)
      ensures !triggered ==> req.None? && CurrentView() == old(CurrentView())
      ensures triggered ==> (req.None? <==> !HasToken(token))
      ensures triggered && req.None? ==> CurrentView() == View(None, false, "Not authenticated")
      ensures triggered && req.Some? ==>
        && req.value == Request(StatsEndpoint, QueryFor(region, district, timeFilter), AuthHeaders(token.value))
        && CurrentView() == old(CurrentView()).(loading := true)
    {
      triggered := value != district;
      req := None;
      if triggered {
        district := value;
        req := FetchDashboard();
      }
    }

    /** `setTimeFilter(value)`, as `SetRegion`. */
    method SetTimeFilter(value: string) returns (triggered: bool, req: Option<Request>)
      modifies this
      ensures triggered == (value != old(timeFilter)) && timeFilter == value
      ensures region == old(region) && district == old(district) && token == old(token)
      ensures !triggered ==> req.None? && CurrentView() == old(CurrentView())
      ensures triggered ==> (req.None? <==> !HasToken(token))
      ensures triggered && req.None? ==> CurrentView() == View(None, false, "Not authenticated")
      ensures triggered && req.Some? ==>
        && req.value == Request(StatsEndpoint, QueryFor(region, district, timeFilter), AuthHeaders(token.value))
        && CurrentView() == old(CurrentView()).(loading := true)
    {
      triggered := value != timeFilter;
      req := None;
      if triggered {
        timeFilter := value;
        req := FetchDashboard();
      }
    }

    /** The session's token changes (a login or logout): the fetch effect re-runs. */
    method SetToken(value: Option<string>) returns (triggered: bool, req: Option<Request>)
      modifies this
      ensures triggered == (value != old(token)) && token == value
      ensures region == old(region) && district == old(district) && timeFilter == old(timeFilter)
      ensures !triggered ==> req.None? && CurrentView() == old(CurrentView())
      ensures triggered ==> (req.None? <==> !HasToken(value))
      ensures triggered && req.None? ==> CurrentView() == View(None, false, "Not authenticated")
      ensures triggered && req.Some? ==>
        && req.value == Request(StatsEndpoint, QueryFor(region, district, timeFilter), AuthHeaders(token.value))
        && CurrentView() == old(CurrentView()).(loading := true)
    {
      triggered := value != token;
      req := None;
      if triggered {
        token := value;
        req := FetchDashboard();
      }
    }
  }

  /** Two overlapping requests: the region changes while the first request is
      outstanding, and the first request's reply arrives after the second's. The
      view ends up showing the first, superseded reply, because nothing tags a
      reply with the filters it was requested for. */
  method LastCompletionWins(tok: string, first: string, second: string, staleReply: DashboardReply, freshReply: DashboardReply)
    returns (firstRequest: Request, secondRequest: Request, shown: View)
    requires tok != "" && first != "" && second != "" && first != second
    ensures firstRequest.query == [("region", first), ("timeFilter", "all")]
    ensures secondRequest.query == [("region", second), ("timeFilter", "all")]
    ensures shown == Settled(staleReply)
  {
    RegionWithDefaultFilter(first);
    RegionWithDefaultFilter(second);
    var d := new Dashboard(Some(tok));
    var req := d.FetchDashboard();
    var triggered;
    triggered, req := d.SetRegion(first);
    firstRequest := req.value;
    triggered, req := d.SetRegion(second);
    secondRequest := req.value;
    d.Complete(freshReply);
    d.Complete(staleReply);
    shown := d.CurrentView();
  }
}
