/** The dashboard container: the `campaigns` state, its initial load and the
    `scheduleCampaign` callback that reschedules one campaign. The state is the
    JavaScript array object itself, so an update in place is visible to whoever
    still holds the previous state. */
module DashboardContainer {
  import opened JsValues
  import opened Campaigns

  /** `campaigns.findIndex(c => c.campaignId === id)`: the first index whose id
      matches, or -1. */
  function FindIndex(cs: seq<Campaign>, id: Value): (r: int)
    ensures -1 <= r < |cs|
    ensures r == -1 <==> forall j :: 0 <= j < |cs| ==> cs[j].campaignId != id
    ensures r >= 0 ==> cs[r].campaignId == id && forall j :: 0 <= j < r ==> cs[j].campaignId != id
  {
    if |cs| == 0 then -1
    else if cs[0].campaignId == id then 0
    else
      var k := FindIndex(cs[1..], id);
      if k == -1 then -1 else k + 1
  }

  /** The list after `cs[i].createdOn = value`: the i-th campaign gets the new
      date, keeping its other fields, and every other campaign stays as it was. */
  function Rescheduled(cs: seq<Campaign>, i: nat, value: Value): (r: seq<Campaign>)
    requires i < |cs|
    ensures |r| == |cs|
    ensures r[i].createdOn == value
    ensures r[i] == cs[i].(createdOn := value)
    ensures forall j :: 0 <= j < |cs| && j != i ==> r[j] == cs[j]
  {
    cs[i := cs[i].(createdOn := value)]
  }

  /** Rescheduling changes no id, so every later lookup, by any id, finds the
      same index as before. */
  lemma {:induction false} RescheduledKeepsIndex(cs: seq<Campaign>, i: nat, value: Value, id: Value)
    requires i < |cs|
    ensures FindIndex(Rescheduled(cs, i, value), id) == FindIndex(cs, id)
  {
    if |cs| > 0 && i > 0 {
      RescheduledKeepsIndex(cs[1..], i - 1, value, id);
      assert Rescheduled(cs, i, value)[1..] == Rescheduled(cs[1..], i - 1, value);
    }
  }

  /** Rescheduling the same campaign twice keeps only the second date. */
  lemma RescheduleTwice(cs: seq<Campaign>, i: nat, v: Value, w: Value)
    requires i < |cs|
    ensures Rescheduled(Rescheduled(cs, i, v), i, w) == Rescheduled(cs, i, w)
  {
  }

  /** Every campaign other than the rescheduled one keeps its status. */
  lemma RescheduledOthersKeepStatus(cs: seq<Campaign>, i: nat, value: Value, clock: DateStatus.Clock, j: nat)
    requires i < |cs| && j < |cs| && j != i
    ensures DateStatus.CheckDateStatus(Rescheduled(cs, i, value)[j].createdOn, clock)
         == DateStatus.CheckDateStatus(cs[j].createdOn, clock)
  {
  }

  /** The outcome of the initial `axios.get`: the response's `data` (`None` for
      `null`), or a rejected request. */
  datatype LoadOutcome = Loaded(data: Option<seq<Campaign>>) | LoadFailed

  /** The outcome of `scheduleCampaign`: a TypeError (no list, or no campaign
      with that id, so `campaigns[-1]` is `undefined`), or the body of the POST. */
  datatype ScheduleOutcome = Thrown | Posted(payload: seq<Campaign>)

  /** What the container draws. */
  datatype Screen = NoData | DashboardWith(campaigns: seq<Campaign>)

  class Dashboard {
    /** The `campaigns` state; `null` after a load that returned `null`. */
    var campaigns: array?<Campaign>

    /** `useState([])`. */
    constructor()
      ensures campaigns != null && campaigns.Length == 0
      ensures fresh(campaigns)
    {
      campaigns := new Campaign[0];
    }

    /** The effect's completion: a successful load replaces the state with the
        fetched data; a failed one is only logged. */
    method CompleteLoad(outcome: LoadOutcome)
      modifies this
      ensures outcome.LoadFailed? ==> campaigns == old(campaigns)
      ensures outcome.Loaded? && outcome.data.None? ==> campaigns == null
      ensures outcome.Loaded? && outcome.data.Some? ==>
                campaigns != null && fresh(campaigns) && campaigns[..] == outcome.data.value
    {
      if outcome.Loaded? {
        if outcome.data.None? {
          campaigns := null;
        } else {
          var data := outcome.data.value;
          campaigns := new Campaign[|data|](i requires 0 <= i < |data| => data[i]);
        }
      }
    }

    /** `campaigns && campaigns.length ? <DashboardView …/> : "No Data Available"`. */
    function View(): (s: Screen)
      reads this, campaigns
      ensures s.NoData? <==> campaigns == null || campaigns.Length == 0
      ensures s.DashboardWith? ==> s.campaigns == campaigns[..]
    {
      if campaigns == null || campaigns.Length == 0 then NoData else DashboardWith(campaigns[..])
    }

    /** `scheduleCampaign(id, value)`: the first campaign with that id gets the
        new `createdOn` in the current array itself; the state then becomes a
        fresh copy of that array, which is also what is posted. Without a match
        the write throws and nothing changes. */
    method ScheduleCampaign(id: Value, value: Value) returns (outcome: ScheduleOutcome)
      modifies this, campaigns
      ensures old(campaigns) == null ==> outcome == Thrown && campaigns == null
      ensures old(campaigns) != null && FindIndex(old(campaigns[..]), id) == -1 ==>
                outcome == Thrown && campaigns == old(campaigns) && unchanged(old(campaigns))
      ensures old(campaigns) != null && FindIndex(old(campaigns[..]), id) >= 0 ==>
                var updated := Rescheduled(old(campaigns[..]), FindIndex(old(campaigns[..]), id), value);
                && old(campaigns)[..] == updated
                && campaigns != null && fresh(campaigns) && campaigns[..] == updated
                && outcome == Posted(updated)
    {
      if campaigns == null {
        return Thrown;
      }
      var target := FindIndex(campaigns[..], id);
      if target == -1 {
        return Thrown;
      }
      var current := campaigns;
      current[target] := current[target].(createdOn := value);
      var payload := new Campaign[current.Length](i requires 0 <= i < current.Length reads current => current[i]);
      outcome := Posted(payload[..]);
      campaigns := payload;
    }
  }
}
