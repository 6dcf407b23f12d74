// The reconcile in the order of its code, when every call is answered and nobody else acts, is
// the whole quiet reconcile of BackupSettling.
module QuietReconcile {
  import opened Wrappers
  import opened Sorting
  import opened History
  import opened Layouts
  import opened ObjectStore
  import opened StoreByKey
  import opened RetentionPass
  import opened Environment
  import opened Runs
  import opened Turns
  import opened BackupProtocol
  import opened BackupReconciler
  import opened BackupRetention
  import opened BackupConvergence
  import opened BackupSettling

  function QuietTurn(now: int, stamp: string): Turn<Event> { Turn([], Answer(Done), now, stamp) }

  function QuietTurns(n: nat, now: int, stamp: string): seq<Turn<Event>> { seq(n, _ => QuietTurn(now, stamp)) }

  lemma TakenQuiet(s: State, now: int, stamp: string)
    ensures Taken(Reconciler(), s, QuietTurn(now, stamp)) == Called(s, Done, now, stamp)
  {
    assert Filter(External, []) == [];
  }

  lemma {:induction false} PlayQuiet(s: State, n: nat, extra: nat, now: int, stamp: string) returns (left: nat)
    requires Ended(Quiet(s, n, now, stamp))
    ensures left >= extra
    ensures Play(Reconciler(), s, QuietTurns(n + extra, now, stamp)) == (Quiet(s, n, now, stamp), QuietTurns(left, now, stamp))
    decreases n
  {
    var turns := QuietTurns(n + extra, now, stamp);
    assert n == 0 ==> Quiet(s, n, now, stamp) == s;
    if Ended(s) {
      QuietEnded(s, n, now, stamp);
      left := n + extra;
    } else {
      QuietCall(s, n, now, stamp);
      TakenQuiet(s, now, stamp);
      assert turns[0] == QuietTurn(now, stamp) && turns[1..] == QuietTurns(n - 1 + extra, now, stamp);
      left := PlayQuiet(Called(s, Done, now, stamp), n - 1, extra, now, stamp);
    }
  }

  lemma AskedQuiet(w: World, c: Backup, n: nat, now: int, stamp: string)
    requires n > 0
    ensures Asked(Reconciler(), State(w, Retain(c)), QuietTurns(n, now, stamp)) ==
            (State(w, Retain(c)), QuietTurns(n - 1, now, stamp))
  {
    TakenQuiet(State(w, Retain(c)), now, stamp);
    assert QuietTurns(n, now, stamp)[1..] == QuietTurns(n - 1, now, stamp);
  }

  lemma RecordedQuiet(w: World, c: Backup, h: seq<Entry>, n: nat, now: int, stamp: string)
    requires n > 0
    ensures Asked(Recorder(h), State(w, Retain(c)), QuietTurns(n, now, stamp)) ==
            (State(HistoryRecorded(w, Some(h)), Idle), QuietTurns(n - 1, now, stamp))
  {
    assert Filter(External, []) == [];
    assert QuietTurns(n, now, stamp)[1..] == QuietTurns(n - 1, now, stamp);
  }

  // A quiet pass in code order is the pass of BackupSettling.
  lemma RetainingQuiet(w: World, c: Backup, n: nat, view: map<string, Object>, unreadable: set<string>, now: int, stamp: string)
    requires HasPass(c) && n >= 3
    ensures Retaining(State(w, Retain(c)), QuietTurns(n, now, stamp), c, view, unreadable, now, StoreAnswers(true, true)) ==
            Stretch(Swept(Site(w, view), c, unreadable, now).world, QuietTurns(n - 3, now, stamp),
                    ToPrune(view, w.cr.status.backupHistory, InputOf(w, c, unreadable, now)))
  {
    var history := w.cr.status.backupHistory;
    AskedQuiet(w, c, n, now, stamp);
    AskedQuiet(w, c, n - 1, now, stamp);
    RecordedQuiet(w, c, FinalHistory(view, history, InputOf(w, c, unreadable, now)), n - 2, now, stamp);
  }

  // A pass of which the discovery or the deletion fails records nothing; after a failed discovery
  // it does not set out to delete anything.
  lemma FailedPassRecordsNothing(w: World, c: Backup, n: nat, view: map<string, Object>, unreadable: set<string>, now: int,
                                 stamp: string, fared: StoreAnswers)
    requires HasPass(c) && n >= 3 && !(fared.discovered && fared.pruned)
    ensures var end := Retaining(State(w, Retain(c)), QuietTurns(n, now, stamp), c, view, unreadable, now, fared);
            && end.world == w
            && end.toPrune == if fared.discovered then ToPrune(view, w.cr.status.backupHistory, InputOf(w, c, unreadable, now)) else []
  {
    AskedQuiet(w, c, n, now, stamp);
    AskedQuiet(w, c, n - 1, now, stamp);
  }

  // The ids a quiet reconcile prunes.
  ghost function QuietlyPruned(s: Site, unreadable: set<string>, now: int, stamp: string): seq<string> {
    var v := PassWorld(s.world, now, stamp);
    if s.world.cr.paused || !HasPass(s.world.cr) then []
    else ToPrune(s.view, v.cr.status.backupHistory, InputOf(v, s.world.cr, unreadable, now))
  }

  lemma BegunQuiet(w: World, calls: nat, now: int, stamp: string) returns (left: nat)
    requires Current(w) && calls >= 16 && StampFree(w, stamp)
    ensures left >= 3
    ensures Play(Reconciler(), Step(State(w, Idle), Begin(|w.versions| - 1)), QuietTurns(calls + 3, now, stamp)) ==
            (State(PassWorld(w, now, stamp), PassEnd(w)), QuietTurns(left, now, stamp))
  {
    Begun(w);
    QuietStarted(w, calls, now, stamp);
    left := PlayQuiet(State(w, Started(w.cr)), calls, 3, now, stamp);
  }

  lemma ReconciledFrom(w: World, turns: seq<Turn<Event>>, version: nat, view: map<string, Object>, unreadable: set<string>,
                       now: int, fared: StoreAnswers, s: State, left: seq<Turn<Event>>)
    requires Play(Reconciler(), Step(State(w, Idle), Begin(version)), turns) == (s, left)
    ensures Reconciled(w, turns, version, view, unreadable, now, fared) ==
            if s.pc.Retain? && HasPass(s.pc.c) then Retaining(s, left, s.pc.c, view, unreadable, now, fared)
            else Stretch(s.world, left, [])
  {
  }

  // A quiet reconcile in code order ends, within nineteen calls, where SitePass says.
  lemma QuietReconcileIsSitePass(s: Site, calls: nat, unreadable: set<string>, now: int, stamp: string)
    requires Current(s.world) && calls >= 16 && StampFree(s.world, stamp)
    ensures var end := Reconciled(s.world, QuietTurns(calls + 3, now, stamp), |s.world.versions| - 1, s.view,
                                  unreadable, now, StoreAnswers(true, true));
            end.world == SitePass(s, unreadable, now, stamp).world && end.toPrune == QuietlyPruned(s, unreadable, now, stamp)
  {
    var w, v := s.world, PassWorld(s.world, now, stamp);
    var left := BegunQuiet(w, calls, now, stamp);
    ReconciledFrom(w, QuietTurns(calls + 3, now, stamp), |w.versions| - 1, s.view, unreadable, now, StoreAnswers(true, true),
                   State(v, PassEnd(w)), QuietTurns(left, now, stamp));
    EndQuiet(s, v, left, unreadable, now, stamp);
  }

  lemma EndQuiet(s: Site, v: World, left: nat, unreadable: set<string>, now: int, stamp: string)
    requires v == PassWorld(s.world, now, stamp) && left >= 3
    ensures var pc := PassEnd(s.world);
            var end := if pc.Retain? && HasPass(pc.c)
                       then Retaining(State(v, pc), QuietTurns(left, now, stamp), pc.c, s.view, unreadable, now, StoreAnswers(true, true))
                       else Stretch(v, QuietTurns(left, now, stamp), []);
            end.world == SitePass(s, unreadable, now, stamp).world && end.toPrune == QuietlyPruned(s, unreadable, now, stamp)
  {
    var c := s.world.cr;
    if !c.paused && HasPass(c) { RetainingQuiet(v, c, left, s.view, unreadable, now, stamp); }
  }

  // And leaves in a store with a faithful layout what SitePass says.
  lemma QuietStoreIsSitePass(s: Site, objects: map<Path, Object>, layout: Layout, unreadable: set<string>, now: int, stamp: string)
    requires ValidStore(objects, layout) && Faithful(layout) && s.view == View(objects, layout)
    ensures View(AfterPruning(objects, layout, QuietlyPruned(s, unreadable, now, stamp)), layout) ==
            SitePass(s, unreadable, now, stamp).view
  {
    PrunedByKey(objects, layout, QuietlyPruned(s, unreadable, now, stamp));
    if s.world.cr.paused || !HasPass(s.world.cr) { RemainingNothing(s.view); }
  }
}
