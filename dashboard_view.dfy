/** The dashboard view: the campaign list split into live, past and upcoming
    campaigns, shown as three tabs in the order Upcoming, Live, Past. */
module DashboardView {
  import opened JsValues
  import opened DateStatus
  import opened Campaigns
  import Tabs

  /** `campaigns.filter(c => checkDateStatus(c.createdOn) === status)`: the
      campaigns with that status, in their order. */
  function WithStatus(cs: seq<Campaign>, status: Status, clock: Clock): (r: seq<Campaign>)
    ensures |r| <= |cs|
    ensures forall c :: c in r ==> c in cs && CheckDateStatus(c.createdOn, clock) == status
    ensures forall c :: c in cs && CheckDateStatus(c.createdOn, clock) == status ==> c in r
  {
    if |cs| == 0 then []
    else (if CheckDateStatus(cs[0].createdOn, clock) == status then [cs[0]] else [])
         + WithStatus(cs[1..], status, clock)
  }

  /** The three lists the view builds. */
  datatype CampaignLists = CampaignLists(live: seq<Campaign>, past: seq<Campaign>, upcoming: seq<Campaign>)

  /** The split with one reading of the clock for the whole render; a missing
      `campaigns` prop is the empty list. */
  function Split(campaigns: Option<seq<Campaign>>, clock: Clock): (r: CampaignLists)
    ensures forall c :: c in r.live <==> c in OrEmpty(campaigns) && CheckDateStatus(c.createdOn, clock) == Live
    ensures forall c :: c in r.past <==> c in OrEmpty(campaigns) && CheckDateStatus(c.createdOn, clock) == Past
    ensures forall c :: c in r.upcoming <==> c in OrEmpty(campaigns) && CheckDateStatus(c.createdOn, clock) == Upcoming
  {
    var cs := OrEmpty(campaigns);
    CampaignLists(WithStatus(cs, Live, clock), WithStatus(cs, Past, clock), WithStatus(cs, Upcoming, clock))
  }

  /** A missing campaign list gives three empty lists. */
  lemma SplitOfMissing(clock: Clock)
    ensures Split(None, clock) == CampaignLists([], [], [])
  {
  }

  /** Every campaign lands in exactly one list, as often as it occurs in the input. */
  lemma {:induction false} SplitIsPartition(cs: seq<Campaign>, clock: Clock)
    ensures var s := Split(Some(cs), clock);
            multiset(s.live) + multiset(s.past) + multiset(s.upcoming) == multiset(cs)
  {
    if |cs| > 0 {
      var st := CheckDateStatus(cs[0].createdOn, clock);
      SplitIsPartition(cs[1..], clock);
      WithStatusStep(cs, Live, clock);
      WithStatusStep(cs, Past, clock);
      WithStatusStep(cs, Upcoming, clock);
      MultisetOfCons(cs);
      var s, rest := Split(Some(cs), clock), Split(Some(cs[1..]), clock);
      PartitionStep(cs[0], multiset(s.live), multiset(s.past), multiset(s.upcoming),
                    multiset(rest.live), multiset(rest.past), multiset(rest.upcoming),
                    st == Live, st == Past, st == Upcoming);
    }
  }

  /** One element added to exactly one of three parts adds it once to their sum. */
  lemma PartitionStep<T>(x: T, a: multiset<T>, b: multiset<T>, c: multiset<T>,
                         a': multiset<T>, b': multiset<T>, c': multiset<T>,
                         inA: bool, inB: bool, inC: bool)
    requires (inA && !inB && !inC) || (!inA && inB && !inC) || (!inA && !inB && inC)
    requires a == (if inA then multiset{x} else multiset{}) + a'
    requires b == (if inB then multiset{x} else multiset{}) + b'
    requires c == (if inC then multiset{x} else multiset{}) + c'
    ensures a + b + c == multiset{x} + (a' + b' + c')
  {
  }

  lemma MultisetOfCons<T>(s: seq<T>)
    requires |s| > 0
    ensures multiset(s) == multiset{s[0]} + multiset(s[1..])
  {
    assert s == [s[0]] + s[1..];
  }

  lemma WithStatusStep(cs: seq<Campaign>, status: Status, clock: Clock)
    requires |cs| > 0
    ensures multiset(WithStatus(cs, status, clock))
         == (if CheckDateStatus(cs[0].createdOn, clock) == status then multiset{cs[0]} else multiset{})
            + multiset(WithStatus(cs[1..], status, clock))
  {
  }

  /** The three lengths add up to the number of campaigns. */
  lemma SplitLengths(cs: seq<Campaign>, clock: Clock)
    ensures var s := Split(Some(cs), clock);
            |s.live| + |s.past| + |s.upcoming| == |cs|
  {
    SplitIsPartition(cs, clock);
    var s := Split(Some(cs), clock);
    assert |multiset(s.live) + multiset(s.past) + multiset(s.upcoming)| == |multiset(cs)|;
  }

  /** A campaign of the input is in the list of its own status and in neither other list. */
  lemma ExactlyOneList(cs: seq<Campaign>, c: Campaign, clock: Clock)
    requires c in cs
    ensures var s := Split(Some(cs), clock);
            var status := CheckDateStatus(c.createdOn, clock);
            && (c in s.live <==> status == Live)
            && (c in s.past <==> status == Past)
            && (c in s.upcoming <==> status == Upcoming)
  {
  }

  /** Filtering keeps the input order: the filter of a concatenation is the
      concatenation of the filters. */
  lemma {:induction false} WithStatusKeepsOrder(s: seq<Campaign>, t: seq<Campaign>, status: Status, clock: Clock)
    ensures WithStatus(s + t, status, clock) == WithStatus(s, status, clock) + WithStatus(t, status, clock)
  {
    if |s| > 0 {
      ConcatParts(s, t);
      WithStatusKeepsOrder(s[1..], t, status, clock);
    } else {
      ConcatEmpty(s, t);
    }
  }

  lemma ConcatParts<T>(s: seq<T>, t: seq<T>)
    requires |s| > 0
    ensures |s + t| > 0 && (s + t)[0] == s[0] && (s + t)[1..] == s[1..] + t
  {
  }

  lemma ConcatEmpty<T>(s: seq<T>, t: seq<T>)
    requires |s| == 0
    ensures s + t == t
  {
  }

  // ---------------------------------------------------------------------------
  // The split as the source performs it

  /** As written, each of the `filter` callbacks calls `checkDateStatus`, which
      reads the clock again: `clockAt(status, i)` is the reading taken when the
      pass for `status` tests the i-th campaign. */
  function WithStatusAsWritten(cs: seq<Campaign>, status: Status, clockAt: (Status, nat) -> Clock, from: nat): (r: seq<Campaign>)
    ensures |r| <= |cs|
    ensures forall c :: c in r ==> c in cs
  {
    if |cs| == 0 then []
    else (if CheckDateStatus(cs[0].createdOn, clockAt(status, from)) == status then [cs[0]] else [])
         + WithStatusAsWritten(cs[1..], status, clockAt, from + 1)
  }

  /** The three lists as the source builds them; each still holds only
      campaigns of the input, but together they need not partition it. */
  function SplitAsWritten(campaigns: Option<seq<Campaign>>, clockAt: (Status, nat) -> Clock): (r: CampaignLists)
    ensures forall c :: c in r.live || c in r.past || c in r.upcoming ==> c in OrEmpty(campaigns)
  {
    var cs := OrEmpty(campaigns);
    CampaignLists(WithStatusAsWritten(cs, Live, clockAt, 0),
                  WithStatusAsWritten(cs, Past, clockAt, 0),
                  WithStatusAsWritten(cs, Upcoming, clockAt, 0))
  }

  /** With one clock reading for every test, the split as written is `Split`. */
  lemma {:induction false} AsWrittenWithSteadyClock(cs: seq<Campaign>, status: Status, clock: Clock, from: nat)
    ensures WithStatusAsWritten(cs, status, (s: Status, i: nat) => clock, from) == WithStatus(cs, status, clock)
  {
    if |cs| > 0 {
      AsWrittenWithSteadyClock(cs[1..], status, clock, from);
      assert WithStatusAsWritten(cs[1..], status, (s: Status, i: nat) => clock, from + 1)
          == WithStatusAsWritten(cs[1..], status, (s: Status, i: nat) => clock, from) by {
        SteadyClockFromAnywhere(cs[1..], status, clock, from + 1, from);
      }
    }
  }

  lemma {:induction false} SteadyClockFromAnywhere(cs: seq<Campaign>, status: Status, clock: Clock, a: nat, b: nat)
    ensures WithStatusAsWritten(cs, status, (s: Status, i: nat) => clock, a)
         == WithStatusAsWritten(cs, status, (s: Status, i: nat) => clock, b)
  {
    if |cs| > 0 {
      SteadyClockFromAnywhere(cs[1..], status, clock, a + 1, b + 1);
    }
  }

  /** A render that straddles local midnight (UTC here): the live pass runs at the
      last millisecond of day 1, the other two passes at the start of day 2. */
  function MidnightReadings(): (Status, nat) -> Clock {
    (s: Status, i: nat) => if s == Live then Clock(2 * DayMs - 1, 0) else Clock(2 * DayMs, 0)
  }

  function CampaignOn(ms: int): Campaign {
    Campaign(Num(1), Num(ms), Undefined, Undefined, None, Undefined)
  }

  /** Across midnight, a campaign dated day 1 ends up both live and past, and a
      campaign dated day 2 ends up in no list at all. */
  lemma MidnightBreaksPartition()
    ensures var a := CampaignOn(DayMs);
            var s := SplitAsWritten(Some([a]), MidnightReadings());
            a in s.live && a in s.past
    ensures var b := CampaignOn(2 * DayMs);
            var s := SplitAsWritten(Some([b]), MidnightReadings());
            b !in s.live && b !in s.past && b !in s.upcoming
  {
    var a := CampaignOn(DayMs);
    assert CheckDateStatus(a.createdOn, Clock(2 * DayMs - 1, 0)) == Live;
    assert CheckDateStatus(a.createdOn, Clock(2 * DayMs, 0)) == Past;
    var b := CampaignOn(2 * DayMs);
    assert CheckDateStatus(b.createdOn, Clock(2 * DayMs - 1, 0)) == Upcoming;
    assert CheckDateStatus(b.createdOn, Clock(2 * DayMs, 0)) == Live;
    var s := SplitAsWritten(Some([b]), MidnightReadings());
    assert MidnightReadings()(Live, 0) == Clock(2 * DayMs - 1, 0);
    assert MidnightReadings()(Past, 0) == Clock(2 * DayMs, 0);
    assert MidnightReadings()(Upcoming, 0) == Clock(2 * DayMs, 0);
    assert [b][1..] == [];
    assert WithStatusAsWritten([], Live, MidnightReadings(), 1) == [];
    assert WithStatusAsWritten([b], Live, MidnightReadings(), 0) == [];
    assert WithStatusAsWritten([], Past, MidnightReadings(), 1) == [];
    assert WithStatusAsWritten([b], Past, MidnightReadings(), 0) == [];
    assert WithStatusAsWritten([], Upcoming, MidnightReadings(), 1) == [];
    assert WithStatusAsWritten([b], Upcoming, MidnightReadings(), 0) == [];
    assert s.live == [] && s.past == [] && s.upcoming == [];
  }

  // ---------------------------------------------------------------------------
  // The tabs

  datatype DashboardProps<S> = DashboardProps(campaigns: Option<seq<Campaign>>, scheduleCampaign: S)

  const UpcomingLabel := "Upcoming Campaigns"
  const LiveLabel := "Live Campaigns"
  const PastLabel := "Past Campaigns"

  /** The children of `Tabs`: Upcoming, Live, Past, each a `Campaigns` table over
      its list and the same `scheduleCampaign`; titles are translations. The
      lists come from the split with one clock reading for the whole render;
      the source reads the clock once per test (see `SplitAsWritten`). */
  function DashboardTabs<S>(props: DashboardProps<S>, clock: Clock, t: string -> string)
    : (tabs: seq<Tabs.TabChild<CampaignsProps<S>>>)
    ensures |tabs| == 3
    ensures tabs[0].tabLabel == UpcomingLabel && tabs[0].tabTitle == t("upcomingCampaigns")
    ensures tabs[1].tabLabel == LiveLabel && tabs[1].tabTitle == t("liveCampaigns")
    ensures tabs[2].tabLabel == PastLabel && tabs[2].tabTitle == t("pastCampaigns")
  {
    var s := Split(props.campaigns, clock);
    [ Tabs.TabChild(UpcomingLabel, t("upcomingCampaigns"), CampaignsProps(Some(s.upcoming), props.scheduleCampaign)),
      Tabs.TabChild(LiveLabel, t("liveCampaigns"), CampaignsProps(Some(s.live), props.scheduleCampaign)),
      Tabs.TabChild(PastLabel, t("pastCampaigns"), CampaignsProps(Some(s.past), props.scheduleCampaign)) ]
  }

  /** The three tabs, in order, carry distinct labels, show the three lists of the
      split, and all hand on the dashboard's own `scheduleCampaign`. */
  lemma DashboardTabsShape<S>(props: DashboardProps<S>, clock: Clock, t: string -> string)
    ensures var tabs := DashboardTabs(props, clock, t);
            var s := Split(props.campaigns, clock);
            && |tabs| == 3
            && tabs[0].tabLabel == UpcomingLabel && tabs[0].content.campaigns == Some(s.upcoming)
            && tabs[1].tabLabel == LiveLabel && tabs[1].content.campaigns == Some(s.live)
            && tabs[2].tabLabel == PastLabel && tabs[2].content.campaigns == Some(s.past)
            && Tabs.DistinctLabels(tabs)
            && forall i :: 0 <= i < 3 ==> tabs[i].content.scheduleCampaign == props.scheduleCampaign
  {
  }

  /** When the dashboard first appears, the Upcoming tab is active and only the
      upcoming campaigns (of the one-reading split) are shown. */
  method InitialTab<S>(props: DashboardProps<S>, clock: Clock, t: string -> string)
    returns (active: string, shown: seq<CampaignsProps<S>>)
    ensures active == UpcomingLabel
    ensures shown == [CampaignsProps(Some(Split(props.campaigns, clock).upcoming), props.scheduleCampaign)]
  {
    var children := DashboardTabs(props, clock, t);
    var tabs := new Tabs.Tabs(children);
    active := tabs.activeTab;
    DashboardTabsShape(props, clock, t);
    Tabs.OnlyActiveChildShown(children, 0);
    shown := Tabs.Shown(Tabs.Content(children, active));
  }
}
