/** py/keep.py's decide, one check of the restart supervisor, and what it
    promises over whole runs of checks. */
module Keep {
  import opened Prelude

  const DAY := 86400

  datatype Policy = Policy(graceS: int, gapS: int, maxPerDay: int, lostGraceS: int)

  /** What one check finds; lost names the nodes whose share of the engine is gone. */
  datatype Check = Check(now: int, serving: string, healthy: bool, busy: bool, lost: seq<string>)
  {
    predicate Whole() { healthy && lost == [] }

    /** Something is recorded as serving, nothing is running, and the engine is not whole. */
    predicate Bad() { serving != "" && !busy && !Whole() }
  }

  /** keep.json. */
  datatype Record = Record(restarts: seq<int>, recipe: Option<string>, firstBad: Option<int>, gaveUp: Option<int>)

  datatype Action = Nothing | Restart | GiveUp

  const EMPTY := Record([], None, None, None)

  /** The restarts less than a day old. */
  function Recent(restarts: seq<int>, now: int): seq<int> {
    if restarts == [] then []
    else
      var last := restarts[|restarts| - 1];
      Recent(restarts[..|restarts| - 1], now) + (if now - last < DAY then [last] else [])
  }

  function Latest(restarts: seq<int>): (latest: int)
    requires restarts != []
    ensures latest in restarts
    ensures forall r :: r in restarts ==> r <= latest
  {
    var last := restarts[|restarts| - 1];
    assert forall r :: r in restarts ==> r == last || r in restarts[..|restarts| - 1];
    if |restarts| == 1 then last else Max(Latest(restarts[..|restarts| - 1]), last)
  }

  function Wait(p: Policy, c: Check): int {
    if c.lost != [] then p.lostGraceS else p.graceS
  }

  /** The record a bad check works on: pruned, of this recipe, with the time of its first bad check. */
  function Noted(st: Record, c: Check): Record {
    var recent := Recent(st.restarts, c.now);
    var same := if st.recipe == Some(c.serving) then st.(restarts := recent)
                else Record(recent, Some(c.serving), None, None);
    if same.firstBad.Some? then same else same.(firstBad := Some(c.now))
  }

  datatype Decision = Decision(action: Action, record: Record)

  function Decide(p: Policy, st: Record, c: Check): Decision {
    var recent := Recent(st.restarts, c.now);
    if c.serving == "" then Decision(Nothing, Record(recent, None, None, None))
    else if c.busy then Decision(Nothing, st.(restarts := recent))
    else if c.Whole() then Decision(Nothing, Record(recent, st.recipe, None, None))
    else
      var noted := Noted(st, c);
      if c.now - noted.firstBad.value < Wait(p, c) then Decision(Nothing, noted)
      else if recent != [] && c.now - Latest(recent) < p.gapS then Decision(Nothing, noted)
      else if |recent| >= p.maxPerDay then
        if noted.gaveUp.Some? && noted.gaveUp.value != 0 then Decision(Nothing, noted)
        else Decision(GiveUp, noted.(gaveUp := Some(c.now)))
      else Decision(Restart, noted.(restarts := recent + [c.now], firstBad := Some(c.now)))
  }

  // ---------------------------------------------------------------- runs --

  /** The record after a run of checks. */
  function After(p: Policy, st: Record, cs: seq<Check>): Record {
    if cs == [] then st else Decide(p, After(p, st, cs[..|cs| - 1]), cs[|cs| - 1]).record
  }

  function ActionAt(p: Policy, st: Record, cs: seq<Check>, k: nat): Action
    requires k < |cs|
  {
    Decide(p, After(p, st, cs[..k]), cs[k]).action
  }

  /** Every restart a run made, kept by no one: the record prunes its own. */
  function History(p: Policy, cs: seq<Check>): seq<int> {
    if cs == [] then []
    else
      var init, c := cs[..|cs| - 1], cs[|cs| - 1];
      History(p, init) + (if Decide(p, After(p, EMPTY, init), c).action == Restart then [c.now] else [])
  }

  /** A clock that never steps back. */
  ghost predicate Steady(cs: seq<Check>) {
    forall i, j :: 0 <= i <= j < |cs| ==> cs[i].now <= cs[j].now
  }

  // ----------------------------------------------- spacing and daily cap --

  lemma {:induction false} RecentTwice(restarts: seq<int>, early: int, late: int)
    requires early <= late
    ensures Recent(Recent(restarts, early), late) == Recent(restarts, late)
  {
    if restarts != [] {
      var init, last := restarts[..|restarts| - 1], restarts[|restarts| - 1];
      RecentTwice(init, early, late);
      if early - last < DAY {
        assert (Recent(init, early) + [last])[..|Recent(init, early)|] == Recent(init, early);
      } else {
        assert Recent(init, early) + [] == Recent(init, early);
      }
    }
  }

  lemma RecentSnoc(restarts: seq<int>, now: int, r: int)
    ensures Recent(restarts + [r], now) == Recent(restarts, now) + (if now - r < DAY then [r] else [])
  {
    assert (restarts + [r])[..|restarts|] == restarts;
  }

  lemma {:induction false} RecentMembers(restarts: seq<int>, now: int, r: int)
    ensures r in Recent(restarts, now) <==> r in restarts && now - r < 86400
  {
    if restarts != [] {
      RecentMembers(restarts[..|restarts| - 1], now, r);
    }
  }

  /** A check prunes the list and adds its own restart, nothing else. */
  lemma DecideRestarts(p: Policy, st: Record, c: Check)
    ensures Decide(p, st, c).record.restarts
         == Recent(st.restarts, c.now) + (if Decide(p, st, c).action == Restart then [c.now] else [])
  {
  }

  lemma HistoryNext(p: Policy, cs: seq<Check>, c: Check)
    ensures After(p, EMPTY, cs + [c]) == Decide(p, After(p, EMPTY, cs), c).record
    ensures History(p, cs + [c])
         == if Decide(p, After(p, EMPTY, cs), c).action == Restart then History(p, cs) + [c.now] else History(p, cs)
  {
    hide Decide;
    assert (cs + [c])[..|cs|] == cs;
  }

  lemma NothingYet(p: Policy)
    ensures After(p, EMPTY, []) == EMPTY && History(p, []) == [] && forall now :: Recent([], now) == []
  {
  }

  /** The pruned list is what is left of the whole history. */
  lemma {:induction false} RecordIsRecentHistory(p: Policy, cs: seq<Check>)
    requires Steady(cs) && cs != []
    ensures After(p, EMPTY, cs).restarts == Recent(History(p, cs), cs[|cs| - 1].now)
  {
    NothingYet(p);
    hide Decide, Recent, After, History;
    var init, c := cs[..|cs| - 1], cs[|cs| - 1];
    if init != [] {
      RecordIsRecentHistory(p, init);
      assert init[|init| - 1].now <= c.now;
      RecentTwice(History(p, init), init[|init| - 1].now, c.now);
    }
    RecentSnoc(History(p, init), c.now, c.now);
    DecideRestarts(p, After(p, EMPTY, init), c);
    HistoryNext(p, init, c);
    assert cs == init + [c];
    assert Recent(After(p, EMPTY, init).restarts, c.now) == Recent(History(p, init), c.now);
  }

  /** A restart's record, before it: the history of the last day is short of the cap and old enough. */
  lemma RestartMeans(p: Policy, cs: seq<Check>, c: Check)
    requires Steady(cs + [c])
    requires Decide(p, After(p, EMPTY, cs), c).action == Restart
    ensures c.serving != "" && !c.busy && (!c.healthy || c.lost != [])
    ensures var recent := Recent(History(p, cs), c.now);
            |recent| < p.maxPerDay && forall r :: r in recent ==> c.now - r >= p.gapS
    ensures forall r :: r in History(p, cs) && c.now - r < 86400 ==> c.now - r >= p.gapS
  {
    forall r | r in History(p, cs) && c.now - r < 86400
      ensures r in Recent(History(p, cs), c.now)
    {
      RecentMembers(History(p, cs), c.now, r);
    }
    assert (cs + [c])[|cs|] == c;
    assert forall k :: 0 <= k < |cs| ==> (cs + [c])[k] == cs[k];
    if cs != [] {
      RecordIsRecentHistory(p, cs);
      RecentTwice(History(p, cs), cs[|cs| - 1].now, c.now);
    }
  }

  /** So does a give-up's: the day's restarts are spent, and the last is old enough. */
  lemma GiveUpMeans(p: Policy, cs: seq<Check>, c: Check)
    requires Steady(cs + [c])
    requires Decide(p, After(p, EMPTY, cs), c).action == GiveUp
    ensures c.serving != "" && !c.busy && (!c.healthy || c.lost != [])
    ensures var recent := Recent(History(p, cs), c.now);
            |recent| >= p.maxPerDay && forall r :: r in recent ==> c.now - r >= p.gapS
  {
    assert (cs + [c])[|cs|] == c;
    assert forall k :: 0 <= k < |cs| ==> (cs + [c])[k] == cs[k];
    if cs != [] {
      RecordIsRecentHistory(p, cs);
      RecentTwice(History(p, cs), cs[|cs| - 1].now, c.now);
    }
  }

  lemma {:induction false} HistoryPast(p: Policy, cs: seq<Check>)
    requires Steady(cs)
    ensures forall r :: r in History(p, cs) ==> cs != [] && r <= cs[|cs| - 1].now
  {
    if cs != [] {
      HistoryPast(p, cs[..|cs| - 1]);
    }
  }

  /** Any two restarts of a run are gap_s apart, or a day: whichever is shorter. */
  lemma {:induction false} RestartsSpaced(p: Policy, cs: seq<Check>)
    requires Steady(cs)
    ensures var h := History(p, cs);
            forall i, j :: 0 <= i < j < |h| ==> h[j] - h[i] >= Min(p.gapS, DAY)
  {
    if cs != [] {
      var init, c := cs[..|cs| - 1], cs[|cs| - 1];
      assert cs == init + [c];
      RestartsSpaced(p, init);
      var h := History(p, init);
      if Decide(p, After(p, EMPTY, init), c).action == Restart {
        RestartMeans(p, init, c);
        forall i | 0 <= i < |h|
          ensures c.now - h[i] >= Min(p.gapS, DAY)
        {
          RecentMembers(h, c.now, h[i]);
        }
      }
    }
  }

  /** The grace a check waits has passed since this time: the short one when a share of the engine is gone. */
  predicate Waited(p: Policy, since: int, c: Check) {
    && (c.lost == [] ==> c.now - since >= p.graceS)
    && (c.lost != [] ==> c.now - since >= p.lostGraceS)
  }

  /** Once a check has restarted, no outage is remembered from before it. */
  lemma {:induction false} BadSince(p: Policy, cs: seq<Check>, i: nat, j: nat)
    requires Steady(cs) && i < j <= |cs| && ActionAt(p, EMPTY, cs, i) == Restart
    ensures var st := After(p, EMPTY, cs[..j]); st.firstBad.Some? ==> st.firstBad.value >= cs[i].now
  {
    hide Decide;
    AfterNext(p, EMPTY, cs, j - 1);
    BadNext(p, After(p, EMPTY, cs[..j - 1]), cs[j - 1]);
    if j > i + 1 {
      BadSince(p, cs, i, j - 1);
    }
  }

  /** A check that finds an engine bad remembers when it first was, a restart that it was just now. */
  lemma BadNext(p: Policy, st: Record, c: Check)
    ensures var d := Decide(p, st, c);
            && (d.record.firstBad.Some? ==> d.record.firstBad == st.firstBad || d.record.firstBad == Some(c.now))
            && (d.action == Restart ==> d.record.firstBad == Some(c.now))
  {
    hide Recent, Latest;
  }

  /** A restart's own load gets the grace again: between any two restarts of a run lies the grace the later waits. */
  lemma RestartsWait(p: Policy, cs: seq<Check>, i: nat, j: nat)
    requires Steady(cs) && i < j < |cs|
    requires ActionAt(p, EMPTY, cs, i) == Restart && ActionAt(p, EMPTY, cs, j) == Restart
    ensures Waited(p, cs[i].now, cs[j])
  {
    hide Recent;
    BadSince(p, cs, i, j);
  }

  /** The restarts in the day that ends at t, (t - DAY, t]. */
  function InDay(restarts: seq<int>, t: int): seq<int> {
    if restarts == [] then []
    else
      var last := restarts[|restarts| - 1];
      InDay(restarts[..|restarts| - 1], t) + (if t - DAY < last <= t then [last] else [])
  }

  lemma InDaySnoc(restarts: seq<int>, r: int, t: int)
    ensures InDay(restarts + [r], t) == InDay(restarts, t) + (if t - DAY < r <= t then [r] else [])
  {
    assert (restarts + [r])[..|restarts|] == restarts;
  }

  lemma {:induction false} InDayWithinRecent(restarts: seq<int>, t: int, now: int)
    requires t >= now
    ensures |InDay(restarts, t)| <= |Recent(restarts, now)|
  {
    if restarts != [] {
      InDayWithinRecent(restarts[..|restarts| - 1], t, now);
    }
  }

  /** No day of a run, wherever it starts, holds more than max_per_day restarts. */
  lemma {:induction false} DailyCap(p: Policy, cs: seq<Check>, t: int)
    requires Steady(cs)
    ensures |InDay(History(p, cs), t)| <= Max(0, p.maxPerDay)
  {
    hide Decide, History, After, InDay, Recent;
    if cs == [] {
      NothingInDay(p, t);
    } else {
      var init, c := cs[..|cs| - 1], cs[|cs| - 1];
      assert cs == init + [c];
      DailyCap(p, init, t);
      HistoryNext(p, init, c);
      if Decide(p, After(p, EMPTY, init), c).action == Restart {
        RestartMeans(p, init, c);
        InDaySnoc(History(p, init), c.now, t);
        if c.now <= t {
          InDayWithinRecent(History(p, init), t, c.now);
        }
      }
    }
  }

  lemma NothingInDay(p: Policy, t: int)
    ensures InDay(History(p, []), t) == []
  {
  }

  /** With any gap longer than a day the promise fails: pruning forgets the restart the gap is counted from. */
  lemma GapBeyondADayFails(gap: int)
    requires gap > DAY
    ensures var p := Policy(0, gap, 3, 0);
            var dead := (now: int) => Check(now, "glm", false, false, []);
            var cs := [dead(1), dead(1 + DAY)];
            Steady(cs) && History(p, cs) == [1, 1 + DAY]
  {
    var p := Policy(0, gap, 3, 0);
    var dead := (now: int) => Check(now, "glm", false, false, []);
    var cs := [dead(1), dead(1 + DAY)];
    var st := Record([1], Some("glm"), Some(1), None);
    ForgottenRestart(gap);
    assert [dead(1)][..0] == [] && cs[..1] == [dead(1)];
    hide Decide;
    assert History(p, []) == [] && After(p, EMPTY, []) == EMPTY;
    assert History(p, [dead(1)]) == [1] && After(p, EMPTY, [dead(1)]) == st;
  }

  /** A day after its only restart the record no longer holds it. */
  lemma ForgottenRestart(gap: int)
    requires gap > DAY
    ensures var p, st := Policy(0, gap, 3, 0), Record([1], Some("glm"), Some(1), None);
            Decide(p, EMPTY, Check(1, "glm", false, false, [])) == Decision(Restart, st)
            && Decide(p, st, Check(1 + DAY, "glm", false, false, [])).action == Restart
  {
    RecentSnoc([], 1 + DAY, 1);
    assert [] + [1] == [1];
  }

  // --------------------------------------------------- giving up only once --

  /** A check that ends an outage of this recipe: nothing is recorded as serving,
      or, with no rack up or down running, the engine is whole or another recipe's. */
  predicate Clears(recipe: string, c: Check) {
    c.serving == "" || (!c.busy && ((c.healthy && c.lost == []) || c.serving != recipe))
  }

  lemma AfterNext(p: Policy, st: Record, cs: seq<Check>, k: nat)
    requires k < |cs|
    ensures After(p, st, cs[..k + 1]) == Decide(p, After(p, st, cs[..k]), cs[k]).record
  {
    assert cs[..k + 1][..k] == cs[..k];
  }

  lemma GivenUpNow(p: Policy, st: Record, c: Check)
    requires Decide(p, st, c).action == GiveUp
    ensures var after := Decide(p, st, c).record;
            after.recipe == Some(c.serving) && after.gaveUp == Some(c.now)
  {
  }

  lemma StillGivenUp(p: Policy, st: Record, c: Check, recipe: string, at: int)
    requires st.recipe == Some(recipe) && st.gaveUp == Some(at) && at != 0
    requires !Clears(recipe, c)
    ensures var d := Decide(p, st, c);
            d.record.recipe == Some(recipe) && d.record.gaveUp == Some(at) && d.action != GiveUp
  {
  }

  lemma {:induction false} StaysGivenUp(p: Policy, cs: seq<Check>, i: nat, j: nat)
    requires i < j <= |cs| && cs[i].now > 0
    requires ActionAt(p, EMPTY, cs, i) == GiveUp
    requires forall k :: i < k < j ==> !Clears(cs[i].serving, cs[k])
    ensures var st := After(p, EMPTY, cs[..j]);
            st.recipe == Some(cs[i].serving) && st.gaveUp == Some(cs[i].now)
  {
    hide Decide;
    AfterNext(p, EMPTY, cs, j - 1);
    if j > i + 1 {
      StaysGivenUp(p, cs, i, j - 1);
      StillGivenUp(p, After(p, EMPTY, cs[..j - 1]), cs[j - 1], cs[i].serving, cs[i].now);
    } else {
      GivenUpNow(p, After(p, EMPTY, cs[..i]), cs[i]);
    }
  }

  /** Between two give-ups some check ended the outage. */
  lemma GivesUpOnce(p: Policy, cs: seq<Check>, i: nat, j: nat)
    requires i < j < |cs| && cs[i].now > 0
    requires ActionAt(p, EMPTY, cs, i) == GiveUp && ActionAt(p, EMPTY, cs, j) == GiveUp
    ensures exists k :: i < k <= j && Clears(cs[i].serving, cs[k])
  {
    if forall k :: i < k <= j ==> !Clears(cs[i].serving, cs[k]) {
      StaysGivenUp(p, cs, i, j);
      StillGivenUp(p, After(p, EMPTY, cs[..j]), cs[j], cs[i].serving, cs[i].now);
    }
  }

  /** A check made while a rack up or rack down runs does nothing, and leaves no trace for any later one. */
  lemma BusyUnseen(p: Policy, st: Record, b: Check, c: Check)
    requires b.serving != "" && b.busy && b.now <= c.now
    ensures Decide(p, st, b).action == Nothing
    ensures Decide(p, Decide(p, st, b).record, c) == Decide(p, st, c)
  {
    hide *;
    RecentTwice(st.restarts, b.now, c.now);
    BusyPrunes(p, st, b);
    SameDecision(p, st, Recent(st.restarts, b.now), c);
  }

  lemma BusyPrunes(p: Policy, st: Record, b: Check)
    requires b.serving != "" && b.busy
    ensures Decide(p, st, b) == Decision(Nothing, st.(restarts := Recent(st.restarts, b.now)))
  {
    hide Recent, Latest;
  }

  lemma SameDecision(p: Policy, st: Record, restarts: seq<int>, c: Check)
    requires Recent(restarts, c.now) == Recent(st.restarts, c.now)
    ensures Decide(p, st.(restarts := restarts), c) == Decide(p, st, c)
  {
    hide Recent, Latest;
  }

  // ------------------------------------------------------ bounded response --

  /** Bad checks of one recipe, one after another. */
  ghost predicate Outage(recipe: string, cs: seq<Check>) {
    && cs != []
    && Steady(cs)
    && recipe != ""
    && forall k :: 0 <= k < |cs| ==>
         cs[k].serving == recipe && !cs[k].busy && (!cs[k].healthy || cs[k].lost != [])
  }

  /** A record in which no outage of this recipe is under way. */
  predicate Rested(st: Record, recipe: string) {
    st.recipe != Some(recipe) || (st.firstBad == None && st.gaveUp == None)
  }

  /** A check of an outage that began at t0 is due to act: the grace it waits has
      passed, and so has the gap since every restart of the last day. */
  ghost predicate Due(p: Policy, restarts: seq<int>, t0: int, c: Check) {
    && Waited(p, t0, c)
    && forall r :: r in restarts && c.now - r < DAY ==> c.now - r >= p.gapS
  }

  /** Until something is done in an outage the record only remembers when it began. */
  lemma {:induction false} OutageRecord(p: Policy, st: Record, recipe: string, cs: seq<Check>, k: nat)
    requires Outage(recipe, cs) && Rested(st, recipe) && k < |cs|
    requires forall j :: 0 <= j <= k ==> ActionAt(p, st, cs, j) == Nothing
    ensures After(p, st, cs[..k + 1]) == Record(Recent(st.restarts, cs[k].now), Some(recipe), Some(cs[0].now), None)
  {
    hide Decide;
    AfterNext(p, st, cs, k);
    assert ActionAt(p, st, cs, k) == Nothing;
    if k == 0 {
      assert cs[..0] == [];
      OutageBegins(p, st, cs[0]);
    } else {
      OutageRecord(p, st, recipe, cs, k - 1);
      assert cs[0].now <= cs[k - 1].now <= cs[k].now;
      RecentTwice(st.restarts, cs[k - 1].now, cs[k].now);
      OutageGoesOn(p, After(p, st, cs[..k]), cs[k]);
    }
  }

  lemma OutageBegins(p: Policy, st: Record, c: Check)
    requires c.Bad() && Rested(st, c.serving) && Decide(p, st, c).action == Nothing
    ensures Decide(p, st, c).record == Record(Recent(st.restarts, c.now), Some(c.serving), Some(c.now), None)
  {
  }

  lemma OutageGoesOn(p: Policy, st: Record, c: Check)
    requires c.Bad() && st.recipe == Some(c.serving) && st.firstBad.Some? && Decide(p, st, c).action == Nothing
    ensures Decide(p, st, c).record == st.(restarts := Recent(st.restarts, c.now))
  {
  }

  lemma {:induction false} RecentShrinks(restarts: seq<int>, early: int, late: int)
    requires early <= late
    ensures |Recent(restarts, late)| <= |Recent(restarts, early)|
  {
    if restarts != [] {
      RecentShrinks(restarts[..|restarts| - 1], early, late);
    }
  }

  lemma DueDecides(p: Policy, st: Record, restarts: seq<int>, c: Check, t0: int)
    requires c.Bad()
    requires (st.recipe == Some(c.serving) && st.firstBad == Some(t0) && st.gaveUp == None)
             || (Rested(st, c.serving) && t0 == c.now)
    requires Recent(st.restarts, c.now) == Recent(restarts, c.now)
    ensures Decide(p, st, c).action == if !Due(p, restarts, t0, c) then Nothing
                                       else if |Recent(restarts, c.now)| < p.maxPerDay then Restart else GiveUp
  {
    forall r
      ensures r in Recent(restarts, c.now) <==> r in restarts && c.now - r < DAY
    {
      RecentMembers(restarts, c.now, r);
    }
  }

  /** The first thing done in an outage is done at the first check that is due, not sooner: a restart, or giving up
      when the day's restarts are spent. */
  lemma FirstRestart(p: Policy, st: Record, recipe: string, cs: seq<Check>, k: nat)
    requires Outage(recipe, cs) && Rested(st, recipe) && k < |cs|
    requires forall j :: 0 <= j < k ==> ActionAt(p, st, cs, j) == Nothing
    ensures ActionAt(p, st, cs, k) == if !Due(p, st.restarts, cs[0].now, cs[k]) then Nothing
                                      else if |Recent(st.restarts, cs[k].now)| < p.maxPerDay then Restart else GiveUp
  {
    hide Decide;
    assert cs[0].now <= cs[k].now;
    if k > 0 {
      OutageRecord(p, st, recipe, cs, k - 1);
      assert cs[k - 1].now <= cs[k].now;
      RecentTwice(st.restarts, cs[k - 1].now, cs[k].now);
    }
    DueDecides(p, After(p, st, cs[..k]), st.restarts, cs[k], cs[0].now);
  }

  /** As long as any of these checks can have to wait, from the first bad one of their outage: the gap, and the grace
      of each kind of check there is. */
  ghost predicate Patience(p: Policy, cs: seq<Check>, wait: int) {
    && wait >= 0 && wait >= p.gapS
    && forall k :: 0 <= k < |cs| ==>
         (cs[k].lost == [] ==> wait >= p.graceS) && (cs[k].lost != [] ==> wait >= p.lostGraceS)
  }

  lemma PatienceIsDue(p: Policy, restarts: seq<int>, t0: int, cs: seq<Check>, wait: int, k: nat)
    requires forall r :: r in restarts ==> r <= t0
    requires k < |cs| && Patience(p, cs, wait) && cs[k].now >= t0 + wait
    ensures Due(p, restarts, t0, cs[k])
  {
  }

  ghost predicate AtMostApart(cs: seq<Check>, d: int) {
    forall j :: 0 < j < |cs| ==> cs[j].now - cs[j - 1].now <= d
  }

  lemma {:induction false} RestartWithin(p: Policy, st: Record, recipe: string, cs: seq<Check>, wait: int, d: int,
                                         k: nat)
    returns (r: nat)
    requires Outage(recipe, cs) && Rested(st, recipe) && k < |cs| && d >= 0
    requires forall t :: t in st.restarts ==> t <= cs[0].now
    requires |Recent(st.restarts, cs[0].now)| < p.maxPerDay
    requires AtMostApart(cs, d) && Patience(p, cs, wait)
    requires forall j :: 0 <= j < k ==> ActionAt(p, st, cs, j) == Nothing
    requires k == 0 || cs[k - 1].now < cs[0].now + wait
    requires cs[|cs| - 1].now >= cs[0].now + wait
    ensures k <= r < |cs| && ActionAt(p, st, cs, r) == Restart
    ensures forall j :: 0 <= j < r ==> ActionAt(p, st, cs, j) == Nothing
    ensures cs[r].now <= cs[0].now + wait + d
    decreases |cs| - k
  {
    hide Decide, Due;
    assert cs[0].now <= cs[k].now;
    RecentShrinks(st.restarts, cs[0].now, cs[k].now);
    FirstRestart(p, st, recipe, cs, k);
    if ActionAt(p, st, cs, k) == Restart {
      r := k;
    } else {
      if cs[k].now >= cs[0].now + wait {
        PatienceIsDue(p, st.restarts, cs[0].now, cs, wait, k);
      }
      r := RestartWithin(p, st, recipe, cs, wait, d, k + 1);
    }
  }

  // ------------------------------------------------ over a run from scratch --

  lemma {:induction false} AfterAppend(p: Policy, st: Record, a: seq<Check>, b: seq<Check>)
    ensures After(p, st, a + b) == After(p, After(p, st, a), b)
  {
    hide Decide;
    if b == [] {
      assert a + b == a;
    } else {
      assert (a + b)[..|a + b| - 1] == a + b[..|b| - 1];
      AfterAppend(p, st, a, b[..|b| - 1]);
    }
  }

  /** The check at s is the first bad one of its outage: the one before it, if any, found
      something else with no rack up or down running. */
  predicate Begins(cs: seq<Check>, s: nat)
    requires s < |cs|
  {
    s == 0 || Clears(cs[s].serving, cs[s - 1])
  }

  lemma BeginsRested(p: Policy, cs: seq<Check>, s: nat)
    requires s < |cs| && Begins(cs, s)
    ensures Rested(After(p, EMPTY, cs[..s]), cs[s].serving)
  {
    if s > 0 {
      AfterNext(p, EMPTY, cs, s - 1);
    }
  }

  /** Bounded response: from the first bad check of an outage, with checks at most d apart and restarts left in
      the day's budget, a restart comes within the longest wait there can be and d, and nothing is done before the grace
      that it waits has passed: grace_s for an engine that does not answer, lost_grace_s when a share of it is gone. */
  lemma BoundedResponse(p: Policy, cs: seq<Check>, s: nat, wait: int, d: int) returns (r: nat)
    requires Steady(cs) && s < |cs| && d >= 0
    requires Outage(cs[s].serving, cs[s..]) && Begins(cs, s)
    requires |InDay(History(p, cs[..s]), cs[s].now)| < p.maxPerDay
    requires AtMostApart(cs[s..], d) && Patience(p, cs[s..], wait)
    requires cs[|cs| - 1].now >= cs[s].now + wait
    ensures s <= r < |cs| && ActionAt(p, EMPTY, cs, r) == Restart
    ensures forall j :: s <= j < r ==> ActionAt(p, EMPTY, cs, j) == Nothing
    ensures cs[r].now <= cs[s].now + wait + d
    ensures cs[r].lost == [] ==> cs[r].now - cs[s].now >= p.graceS
    ensures cs[r].lost != [] ==> cs[r].now - cs[s].now >= p.lostGraceS
  {
    hide Decide, After, History, Recent, InDay, Due;
    var tail, st := cs[s..], After(p, EMPTY, cs[..s]);
    BeginsRested(p, cs, s);
    RestartsPast(p, cs, s);
    var k := RestartWithin(p, st, cs[s].serving, tail, wait, d, 0);
    RestartWaited(p, st, cs[s].serving, tail, k);
    r := s + k;
    TailActions(p, cs, s, k);
    forall j | s <= j < r
      ensures ActionAt(p, EMPTY, cs, j) == Nothing
    {
      TailActions(p, cs, s, j - s);
    }
  }

  lemma RestartWaited(p: Policy, st: Record, recipe: string, cs: seq<Check>, k: nat)
    requires Outage(recipe, cs) && Rested(st, recipe) && k < |cs|
    requires forall j :: 0 <= j < k ==> ActionAt(p, st, cs, j) == Nothing
    requires ActionAt(p, st, cs, k) == Restart
    ensures Waited(p, cs[0].now, cs[k])
  {
    hide Decide;
    FirstRestart(p, st, recipe, cs, k);
  }

  lemma TailActions(p: Policy, cs: seq<Check>, s: nat, j: nat)
    requires s + j < |cs|
    ensures ActionAt(p, After(p, EMPTY, cs[..s]), cs[s..], j) == ActionAt(p, EMPTY, cs, s + j)
  {
    hide Decide;
    assert cs[..s + j] == cs[..s] + cs[s..][..j];
    AfterAppend(p, EMPTY, cs[..s], cs[s..][..j]);
  }

  lemma {:induction false} RecentWithinInDay(restarts: seq<int>, now: int)
    requires forall r :: r in restarts ==> r <= now
    ensures Recent(restarts, now) == InDay(restarts, now)
  {
    if restarts != [] {
      var init := restarts[..|restarts| - 1];
      forall r | r in init
        ensures r <= now
      {
        assert r in restarts;
      }
      assert restarts[|restarts| - 1] in restarts;
      RecentWithinInDay(init, now);
    }
  }

  /** What the record holds when the check at s comes. */
  lemma RestartsPast(p: Policy, cs: seq<Check>, s: nat)
    requires Steady(cs) && s < |cs|
    ensures var restarts := After(p, EMPTY, cs[..s]).restarts;
            && (forall t :: t in restarts ==> t <= cs[s].now)
            && Recent(restarts, cs[s].now) == InDay(History(p, cs[..s]), cs[s].now)
  {
    hide Decide;
    var past := cs[..s];
    HistoryPast(p, past);
    RecentWithinInDay(History(p, past), cs[s].now);
    if s > 0 {
      assert past[s - 1] == cs[s - 1] && cs[s - 1].now <= cs[s].now;
      RecordIsRecentHistory(p, past);
      RecentTwice(History(p, past), cs[s - 1].now, cs[s].now);
      forall t | t in After(p, EMPTY, past).restarts
        ensures t <= cs[s].now
      {
        RecentMembers(History(p, past), cs[s - 1].now, t);
      }
    }
  }
}
