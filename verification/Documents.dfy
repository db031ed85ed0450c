/**
 * A document of the language server: its text is edited while a background build
 * of an earlier text runs, and a log of changes leads from the text that was
 * compiled to the current one.
 */
module Documents {

  import opened Options
  import opened TextChanges

  /** What a finished build leaves: its text, and the length of the log when it was started. */
  datatype Compiled = Compiled(text: Text, logged: nat)

  datatype Attempt = Attempt(text: Text, passed: bool)

  /** The fields of a document, and with the log the whole edits it stands for. */
  datatype State = State(
    text: Text,
    log: Option<seq<TextChange>>,
    compiled: Option<Compiled>,
    building: Option<Compiled>,
    rebuildRequired: bool,
    rebuildFinished: bool,
    edits: seq<Edit>,             // what the log stands for
    attempt: Option<Attempt>)     // the latest build that was attempted

  /** A call from outside.  "ready": the running build, if any, has finished by then. */
  datatype Action =
    | SetText(text: Text)
    | UpdateText(start: Option<nat>, end: Option<nat>, newText: Text, ready: bool)
    | StartRebuild(passes: bool, ready: bool)
    | Query(ready: bool)
    | FileChanged(self: bool, imported: bool, ready: bool)
    | ResetFinished

  function Initial(): State {
    State("", None, None, None, true, false, [], None)
  }

  // ----- what the calls do -----

  function AfterSet(s: State, text: Text): State {
    s.(text := text, log := None, edits := [], rebuildRequired := true)
  }

  /** The result of a finished build is taken, and the log loses what the build has seen. */
  function AfterTake(s: State, ready: bool): State {
    if s.building.None? || !ready then s
    else
      var n := s.building.value.logged;
      var s' := s.(compiled := s.building, building := None, rebuildFinished := true);
      if s.log.None? then s'.(log := Some([]), edits := [])
      else if n <= |s.log.value| && n <= |s.edits| then s'.(log := Some(s.log.value[n..]), edits := s.edits[n..])
      else s'
  }

  predicate ValidRange(s: State, start: Option<nat>, end: Option<nat>) {
    start.Some? && end.Some? && start.value <= end.value <= |s.text|
  }

  predicate Tracks(s: State) {
    s.compiled.Some? && s.log.Some?
  }

  function AfterEdit(s: State, start: Option<nat>, end: Option<nat>, newText: Text): State {
    if !ValidRange(s, start, end) then s
    else
      var e := Edit(start.value, end.value, newText);
      var s' := s.(text := Replaced(s.text, e.start, e.end, newText), rebuildRequired := true);
      if Tracks(s) then s'.(log := Some(s.log.value + [e.Summary()]), edits := s.edits + [e]) else s'
  }

  function AfterStart(s: State, passes: bool): State {
    if s.building.Some? then s
    else
      var s' := s.(rebuildRequired := false, attempt := Some(Attempt(s.text, passes)));
      if !passes then s'.(rebuildFinished := true)
      else
        var s'' := if s.compiled.None? && s.log.None? then s'.(log := Some([]), edits := []) else s';
        s''.(building := Some(Compiled(s.text, if s''.log.None? then 0 else |s''.log.value|)))
  }

  function Next(s: State, a: Action): State {
    match a
    case SetText(t) => AfterSet(s, t)
    case UpdateText(start, end, t, ready) => AfterEdit(AfterTake(s, ready), start, end, t)
    case StartRebuild(passes, ready) => AfterStart(AfterTake(s, ready), passes)
    case Query(ready) => AfterTake(s, ready)
    case FileChanged(self, imported, ready) =>
      var s' := AfterTake(s, ready);
      if !self && s'.compiled.Some? && imported then s'.(rebuildRequired := true) else s'
    case ResetFinished => s.(rebuildFinished := false)
  }

  function Run(s: State, actions: seq<Action>): State
    decreases |actions|
  {
    if actions == [] then s else Run(Next(s, actions[0]), actions[1..])
  }

  // ----- what always holds -----

  /** The log is the one the edits stand for, and is at least as long as when a running build was started. */
  predicate LogOk(s: State) {
    && (s.log.Some? ==> s.log.value == Summaries(s.edits))
    && (s.log.None? ==> s.edits == [])
    && (s.building.Some? && s.log.Some? ==> s.building.value.logged <= |s.log.value|)
  }

  /** If no rebuild is required, the current text was given to the latest attempt; and if that passed and is over, it is compiled. */
  predicate BuildOk(s: State) {
    && (!s.rebuildRequired ==> s.attempt.Some? && s.attempt.value.text == s.text)
    && (s.building.Some? ==> s.attempt == Some(Attempt(s.building.value.text, true)))
    && (s.building.None? && s.attempt.Some? && s.attempt.value.passed ==> s.compiled.Some? && s.compiled.value.text == s.attempt.value.text)
  }

  predicate Ok(s: State) {
    LogOk(s) && BuildOk(s)
  }

  lemma TakeKeeps(s: State, ready: bool)
    requires Ok(s)
    ensures Ok(AfterTake(s, ready))
  {
    if s.building.Some? && ready && s.log.Some? {
      var n := s.building.value.logged;
      assert Summaries(s.edits)[n..] == Summaries(s.edits[n..]);
    } else if s.building.Some? && ready {
      assert Summaries([]) == [];
    }
  }

  lemma EditKeeps(s: State, start: Option<nat>, end: Option<nat>, t: Text)
    requires Ok(s)
    ensures Ok(AfterEdit(s, start, end, t))
  {
    if ValidRange(s, start, end) && Tracks(s) {
      var e := Edit(start.value, end.value, t);
      assert Summaries(s.edits + [e]) == Summaries(s.edits) + [e.Summary()];
    }
  }

  lemma NextKeeps(s: State, a: Action)
    requires Ok(s)
    ensures Ok(Next(s, a))
  {
    assert Summaries([]) == [];
    match a
    case SetText(t) =>
    case UpdateText(start, end, t, ready) =>
      TakeKeeps(s, ready);
      EditKeeps(AfterTake(s, ready), start, end, t);
    case StartRebuild(passes, ready) => TakeKeeps(s, ready);
    case Query(ready) => TakeKeeps(s, ready);
    case FileChanged(_, _, ready) => TakeKeeps(s, ready);
    case ResetFinished =>
  }

  lemma {:induction false} RunKeeps(s: State, actions: seq<Action>)
    requires Ok(s)
    ensures Ok(Run(s, actions))
    decreases |actions|
  {
    if actions != [] {
      NextKeeps(s, actions[0]);
      RunKeeps(Next(s, actions[0]), actions[1..]);
    }
  }

  /** After any calls, a document that needs no rebuild, runs no build, and whose latest attempt passed, is compiled as it is. */
  lemma UpToDate(actions: seq<Action>)
    ensures var s := Run(Initial(), actions);
            && (s.building.Some? && s.log.Some? ==> s.building.value.logged <= |s.log.value|)
            && (!s.rebuildRequired ==> s.attempt.Some? && s.attempt.value.text == s.text)
            && (!s.rebuildRequired && s.building.None? && s.attempt.value.passed ==> s.compiled.Some? && s.compiled.value.text == s.text)
  {
    RunKeeps(Initial(), actions);
  }

  // ----- the log leads from the compiled text to the current one -----

  predicate Leads(edits: seq<Edit>, from: Text, to: Text) {
    Fit(edits, |from|) && Replay(edits, from) == to
  }

  /** The log, if there is something it can start from, leads to the current text. */
  predicate Synced(s: State) {
    Tracks(s) ==> Leads(s.edits, s.compiled.value.text, s.text)
  }

  /** What a running build has not seen of the log leads from its text to the current one. */
  predicate Follows(s: State) {
    s.building.Some? ==>
      if s.log.None? then s.text == s.building.value.text
      else s.building.value.logged <= |s.edits| && Leads(s.edits[s.building.value.logged..], s.building.value.text, s.text)
  }

  /** An edit that changes the text while a build runs is one that is logged. */
  predicate Careful(s: State, a: Action) {
    match a
    case SetText(_) => s.building.None?
    case UpdateText(start, end, _, ready) =>
      var s' := AfterTake(s, ready);
      s'.building.Some? && ValidRange(s', start, end) ==> Tracks(s')
    case _ => true
  }

  predicate AllCareful(s: State, actions: seq<Action>)
    decreases |actions|
  {
    actions != [] ==> Careful(s, actions[0]) && AllCareful(Next(s, actions[0]), actions[1..])
  }

  lemma {:induction false} LeadsNext(es: seq<Edit>, e: Edit, from: Text, to: Text)
    requires Leads(es, from, to) && e.start <= e.end <= |to|
    ensures Leads(es + [e], from, Replaced(to, e.start, e.end, e.text))
  {
    if es == [] {
      assert es + [e] == [e];
    } else {
      assert (es + [e])[0] == es[0] && (es + [e])[1..] == es[1..] + [e];
      LeadsNext(es[1..], e, Replaced(from, es[0].start, es[0].end, es[0].text), to);
    }
  }

  lemma TakeSyncs(s: State, ready: bool)
    requires Ok(s) && Synced(s) && Follows(s)
    ensures Synced(AfterTake(s, ready)) && Follows(AfterTake(s, ready))
  {
  }

  lemma EditSyncs(s: State, start: Option<nat>, end: Option<nat>, t: Text)
    requires Ok(s) && Synced(s) && Follows(s)
    requires s.building.Some? && ValidRange(s, start, end) ==> Tracks(s)
    ensures Synced(AfterEdit(s, start, end, t)) && Follows(AfterEdit(s, start, end, t))
  {
    if ValidRange(s, start, end) && Tracks(s) {
      var e := Edit(start.value, end.value, t);
      LeadsNext(s.edits, e, s.compiled.value.text, s.text);
      if s.building.Some? {
        var n := s.building.value.logged;
        LeadsNext(s.edits[n..], e, s.building.value.text, s.text);
        assert (s.edits + [e])[n..] == s.edits[n..] + [e];
      }
    }
  }

  lemma NextSyncs(s: State, a: Action)
    requires Ok(s) && Synced(s) && Follows(s) && Careful(s, a)
    ensures Synced(Next(s, a)) && Follows(Next(s, a))
  {
    match a
    case SetText(t) =>
    case UpdateText(start, end, t, ready) =>
      TakeKeeps(s, ready);
      TakeSyncs(s, ready);
      EditSyncs(AfterTake(s, ready), start, end, t);
    case StartRebuild(passes, ready) =>
      TakeKeeps(s, ready);
      TakeSyncs(s, ready);
      var s' := AfterTake(s, ready);
      assert s'.edits[|s'.edits|..] == [];
    case Query(ready) => TakeSyncs(s, ready);
    case FileChanged(_, _, ready) => TakeSyncs(s, ready);
    case ResetFinished =>
  }

  lemma {:induction false} RunSyncs(s: State, actions: seq<Action>)
    requires Ok(s) && Synced(s) && Follows(s) && AllCareful(s, actions)
    ensures Synced(Run(s, actions)) && Follows(Run(s, actions))
    decreases |actions|
  {
    if actions != [] {
      NextKeeps(s, actions[0]);
      NextSyncs(s, actions[0]);
      RunSyncs(Next(s, actions[0]), actions[1..]);
    }
  }

  /** On every careful run, at every moment, replaying the log on the compiled text gives the current text. */
  lemma LogReplays(actions: seq<Action>)
    requires AllCareful(Initial(), actions)
    ensures Synced(Run(Initial(), actions))
  {
    RunSyncs(Initial(), actions);
  }

  // ----- what goes wrong otherwise -----

  /** In a document that follows its running build, every edit may be made exactly if edits are logged. */
  lemma CarefulIsNeeded(s: State)
    requires Ok(s) && Synced(s) && Follows(s) && s.building.Some?
    ensures (forall start, end, t :: ValidRange(s, Some(start), Some(end)) ==> Synced(AfterTake(AfterEdit(s, Some(start), Some(end), t), true))) <==> Tracks(s)
  {
    if Tracks(s) {
      forall start, end, t | ValidRange(s, Some(start), Some(end)) ensures Synced(AfterTake(AfterEdit(s, Some(start), Some(end), t), true)) {
        EditKeeps(s, Some(start), Some(end), t);
        EditSyncs(s, Some(start), Some(end), t);
        TakeSyncs(AfterEdit(s, Some(start), Some(end), t), true);
      }
    } else {
      var s' := AfterEdit(s, Some(0), Some(0), "x");
      assert |s'.text| == |s.text| + 1;
      UnloggedEdit(s);
    }
  }

  /** One character put in front while edits are not logged is lost from the log. */
  lemma UnloggedEdit(s: State)
    requires Ok(s) && Follows(s) && s.building.Some? && !Tracks(s)
    ensures ValidRange(s, Some(0), Some(0)) && !Synced(AfterTake(AfterEdit(s, Some(0), Some(0), "x"), true))
  {
    var s' := AfterEdit(s, Some(0), Some(0), "x");
    var s'' := AfterTake(s', true);
    assert s''.edits == if s.log.None? then [] else s.edits[s.building.value.logged..];
  }

  /** Replacing the whole text during a build loses the difference, whenever there is one. */
  lemma SetTextIsNotTracked(s: State, t: Text)
    requires Ok(s) && s.building.Some?
    ensures Synced(AfterTake(AfterSet(s, t), true)) <==> t == s.building.value.text
  {
  }

  /** The first build: an edit made while it runs is missing from the log afterwards. */
  lemma FirstBuildLosesEdits()
    ensures !Synced(Run(Initial(), [StartRebuild(true, false), UpdateText(Some(0), Some(0), "x", false), Query(true)]))
  {
    var a, b, c := StartRebuild(true, false), UpdateText(Some(0), Some(0), "x", false), Query(true);
    var s1 := Next(Initial(), a);
    var s2 := Next(s1, b);
    var s3 := Next(s2, c);
    assert Run(s2, [c]) == Run(s3, []) == s3;
    assert [b, c][1..] == [c] && [a, b, c][1..] == [b, c];
    assert Run(s1, [b, c]) == s3;
    assert s3.edits == [] && s3.compiled.value.text == "" && s3.text == "x";
  }

  // ----- what calls must do -----

  lemma {:induction false} RequiredStays(s: State, actions: seq<Action>)
    requires s.rebuildRequired && forall a :: a in actions ==> !a.StartRebuild?
    ensures Run(s, actions).rebuildRequired
    decreases |actions|
  {
    if actions != [] {
      assert actions[0] in actions && forall a :: a in actions[1..] ==> a in actions;
      RequiredStays(Next(s, actions[0]), actions[1..]);
    }
  }

  /** An edit of a range inside the text is made, whatever builds are doing; a range that is not found changes nothing. */
  lemma EditsAreMade(s: State, start: Option<nat>, end: Option<nat>, newText: Text, ready: bool)
    requires (start.Some? ==> start.value <= |s.text|) && (end.Some? ==> end.value <= |s.text|)
    ensures Next(s, UpdateText(start, end, newText, ready)).text ==
            if start.Some? && end.Some? && start.value <= end.value then s.text[..start.value] + newText + s.text[end.value..] else s.text
  {
  }

  /** Nothing else changes the text. */
  lemma OnlyEditsChangeText(s: State, a: Action)
    ensures a.SetText? ==> Next(s, a).text == a.text
    ensures !a.SetText? && !a.UpdateText? ==> Next(s, a).text == s.text
  {
  }

  /** The text, or a file that the compiled state was built from, is not what was last compiled any more. */
  ghost predicate Outdates(s: State, a: Action) {
    || (a.SetText? && a.text != s.text)
    || (a.UpdateText? && Next(s, a).text != s.text)
    || (a.FileChanged? && !a.self && a.imported && (s.compiled.Some? || (s.building.Some? && a.ready)))
  }

  /** After such a change a rebuild is required until the next one is started. */
  lemma ChangesAreNotForgotten(s: State, a: Action, actions: seq<Action>)
    requires Outdates(s, a) && forall b :: b in actions ==> !b.StartRebuild?
    ensures Run(Next(s, a), actions).rebuildRequired
  {
    RequiredStays(Next(s, a), actions);
  }

  /** A build of the current text is started exactly if none is running and the analysis passes. */
  lemma BuildsAreStarted(s: State, passes: bool, ready: bool)
    ensures var s' := Next(s, StartRebuild(passes, ready));
            if s.building.Some? && !ready then s' == s
            else
              && s'.text == s.text && !s'.rebuildRequired && (s'.building.Some? <==> passes)
              && (passes ==> s'.building.value.text == s.text)
  {
  }

  /** From every state one more build brings the document up to date. */
  lemma CatchesUp(s: State)
    requires Ok(s)
    ensures var s' := Run(s, [StartRebuild(true, true), Query(true)]);
            && s'.text == s.text && !s'.rebuildRequired && s'.building.None? && s'.rebuildFinished
            && s'.compiled.Some? && s'.compiled.value.text == s.text
  {
    var a, b := StartRebuild(true, true), Query(true);
    assert [a, b][1..] == [b] && [b][1..] == [];
    assert Run(s, [a, b]) == Run(Next(s, a), [b]) == Run(Next(Next(s, a), b), []) == Next(Next(s, a), b);
  }

  /** A running build is never lost: it goes on, or its result is taken. */
  lemma BuildsAreTaken(s: State, a: Action)
    requires s.building.Some?
    ensures var s' := Next(s, a);
            s'.building == s.building || (s'.compiled == s.building && (s'.rebuildFinished || s'.building.Some?))
  {
  }

  // ----- positions -----

  /** On careful runs a position in the current text that is mapped back holds the same byte in the compiled text. */
  lemma MappedPositionIsRight(actions: seq<Action>, q: nat)
    requires AllCareful(Initial(), actions)
    requires var s := Run(Initial(), actions); Tracks(s) && q < |s.text| && ToOld(s.log.value, q).Some?
    ensures var s := Run(Initial(), actions);
            var p := ToOld(s.log.value, q).value;
            p < |s.compiled.value.text| && s.compiled.value.text[p] == s.text[q] && ToNew(s.log.value, p) == Some(q)
  {
    LogReplays(actions);
    RunKeeps(Initial(), actions);
    MappedByte(Run(Initial(), actions), q);
  }

  // ----- the document itself -----

  class Document {

    var text: Text
    var log: Option<seq<TextChange>>
    var compiled: Option<Compiled>
    var building: Option<Compiled>
    var rebuildRequired: bool
    var rebuildFinished: bool
    ghost var edits: seq<Edit>
    ghost var attempt: Option<Attempt>

    ghost function View(): State
      reads this
    {
      State(text, log, compiled, building, rebuildRequired, rebuildFinished, edits, attempt)
    }

    constructor ()
      ensures View() == Initial()
    {
      text, log, compiled, building := "", None, None, None;
      rebuildRequired, rebuildFinished := true, false;
      edits, attempt := [], None;
    }

    method SetText(newText: Text)
      modifies this
      ensures View() == AfterSet(old(View()), newText)
    {
      text := newText;
      log := None;
      edits := [];
      rebuildRequired := true;
    }

    /** Takes the result of the build if it is there. */
    method TryTakeBackgroundStateUpdate(ready: bool)
      requires Ok(View())
      modifies this
      ensures View() == AfterTake(old(View()), ready) && Ok(View())
    {
      TakeKeeps(View(), ready);
      if building.None? { return; }
      if !ready { return; }
      compiled := building;
      building := None;
      rebuildFinished := true;
      if log.None? {
        log := Some([]);
      } else {
        assert |log.value| >= compiled.value.logged;
        log := Some(log.value[compiled.value.logged..]);
        edits := edits[compiled.value.logged..];
      }
    }

    /** Replaces a range of the text, given by positions that may fail to be found. */
    method UpdateText(start: Option<nat>, end: Option<nat>, newText: Text, ready: bool)
      requires Ok(View()) && (start.Some? ==> start.value <= |text|) && (end.Some? ==> end.value <= |text|)
      modifies this
      ensures View() == Next(old(View()), Action.UpdateText(start, end, newText, ready)) && Ok(View())
    {
      NextKeeps(View(), Action.UpdateText(start, end, newText, ready));
      TryTakeBackgroundStateUpdate(ready);
      if start.None? || end.None? { return; }
      if end.value < start.value { return; }
      text := text[..start.value] + newText + text[end.value..];
      if compiled.Some? && log.Some? {
        log := Some(log.value + [TextChange(start.value, end.value, |newText|)]);
        edits := edits + [Edit(start.value, end.value, newText)];
      }
      rebuildRequired := true;
    }

    /** Starts a build, unless one is running; the syntax analysis may stop it. */
    method StartRebuild(passes: bool, ready: bool)
      requires Ok(View())
      modifies this
      ensures View() == Next(old(View()), Action.StartRebuild(passes, ready)) && Ok(View())
    {
      NextKeeps(View(), Action.StartRebuild(passes, ready));
      TryTakeBackgroundStateUpdate(ready);
      if building.Some? { return; }
      rebuildRequired := false;
      attempt := Some(Attempt(text, passes));
      if !passes {
        rebuildFinished := true;
        return;
      }
      if compiled.None? && log.None? { log := Some([]); }
      building := Some(Compiled(text, if log.None? then 0 else |log.value|));
    }

    /** A file was changed: this one, or one that the compiled state may depend on. */
    method OnPossibleDependentFileChanged(self: bool, imported: bool, ready: bool)
      requires Ok(View())
      modifies this
      ensures View() == Next(old(View()), FileChanged(self, imported, ready)) && Ok(View())
    {
      NextKeeps(View(), FileChanged(self, imported, ready));
      TryTakeBackgroundStateUpdate(ready);
      if self { return; }
      if compiled.None? { return; }
      if imported { rebuildRequired := true; }
    }

    method RebuildFinished(ready: bool) returns (r: bool)
      requires Ok(View())
      modifies this
      ensures View() == Next(old(View()), Query(ready)) && Ok(View()) && r == rebuildFinished
    {
      TryTakeBackgroundStateUpdate(ready);
      r := rebuildFinished;
    }

    /** The position in the compiled text that a position in the current text comes from. */
    method GetPositionInLastValidText(position: nat) returns (r: Option<nat>)
      requires Ok(View()) && position <= |text|
      ensures r.Some? ==> Tracks(View()) && r == ToOld(log.value, position) && r.value < |compiled.value.text|
      ensures r.Some? && Synced(View()) && position < |text| ==> compiled.value.text[r.value] == text[position]
      ensures r.None? && Synced(View()) && position < |text| ==> log.None? || compiled.None? || ToOld(log.value, position).None?
      ensures Tracks(View()) && Synced(View()) && position < |text| ==>
        var t := Trail(edits, Own(|compiled.value.text|)); |t| == |text| && r == t[position]
    {
      if compiled.None? || log.None? { return None; }
      r := MapNewPositionToOldPosition(log.value, position);
      if Synced(View()) && position < |text| {
        TrailKeepsBytes(edits, Own(|compiled.value.text|), compiled.value.text, compiled.value.text);
        UndefinedOnInserted(edits, |compiled.value.text|, position);
        if r.Some? { MappedByte(View(), position); }
      }
      if r.None? { return None; }
      if r.value >= |compiled.value.text| { return None; }
    }

    /** Where a range of the compiled text is now; the two ends never change their order. */
    method GetIdentifierRange(start: nat, end: nat) returns (r: Option<(nat, nat)>)
      requires Ok(View()) && start < end && (compiled.Some? ==> end <= |compiled.value.text|)
      requires Synced(View())
      ensures r.Some? <==> Tracks(View()) && ToNew(log.value, start).Some? && ToNew(log.value, end).Some?
      ensures r.Some? ==> r.value.0 < r.value.1 <= |text| && text[r.value.0] == compiled.value.text[start]
      ensures r.Some? ==> RangeOf(edits, compiled.value.text, text, start, end, r.value.0, r.value.1)
    {
      if compiled.None? || log.None? { return None; }
      FitProper(edits, |compiled.value.text|);
      var newStart := MapOldPositionToNewPosition(log.value, start);
      var newEnd := MapOldPositionToNewPosition(log.value, end);
      if newStart.None? || newEnd.None? { return None; }
      MapIsIncreasing(log.value, start, end);
      SameBytes(edits, compiled.value.text, start, newStart.value);
      EndsInside(edits, compiled.value.text, end);
      RangeIsRight(edits, compiled.value.text, start, end, newStart.value, newEnd.value);
      r := Some((newStart.value, newEnd.value));
    }
  }

  /**
   * Where each byte of the current text comes from decides: both ends are where the old ends are
   * now, and of the old bytes exactly those between the old ends are between the new ones.
   */
  ghost predicate RangeOf(es: seq<Edit>, from: Text, to: Text, start: nat, end: nat, newStart: nat, newEnd: nat)
    requires Fit(es, |from|)
  {
    var t := Trail(es, Own(|from|));
    && |t| == |to|
    && newStart < |to| && t[newStart] == Some(start)
    && (if end < |from| then newEnd < |to| && t[newEnd] == Some(end) else newEnd == |to|)
    && forall q :: 0 <= q < |to| && t[q].Some? ==> (newStart <= q < newEnd <==> start <= t[q].value < end)
  }

  lemma RangeIsRight(es: seq<Edit>, from: Text, start: nat, end: nat, newStart: nat, newEnd: nat)
    requires Fit(es, |from|) && start < end <= |from|
    requires ToNew(Summaries(es), start) == Some(newStart) && ToNew(Summaries(es), end) == Some(newEnd)
    ensures RangeOf(es, from, Replay(es, from), start, end, newStart, newEnd)
  {
    var cs, n := Summaries(es), |from|;
    var t := Trail(es, Own(n));
    FitProper(es, n);
    TrailKeepsBytes(es, Own(n), from, from);
    MapsFollowBytes(es, n, start, newStart);
    if end < n {
      MapsFollowBytes(es, n, end, newEnd);
    } else {
      TrailLength(es, Own(n));
      MapsAreInverse(cs, n, |t|);
    }
    forall q | 0 <= q < |t| && t[q].Some? ensures newStart <= q < newEnd <==> start <= t[q].value < end {
      OriginMaps(es, n, q);
      OrderKept(cs, start, t[q].value, newStart, q);
      OrderKept(cs, t[q].value, end, q, newEnd);
    }
  }

  /** A byte that comes from somewhere is where that position is mapped to. */
  lemma OriginMaps(es: seq<Edit>, n: nat, q: nat)
    requires Fit(es, n) && q < |Trail(es, Own(n))| && Trail(es, Own(n))[q].Some?
    ensures var p := Trail(es, Own(n))[q].value; p < n && ToNew(Summaries(es), p) == Some(q)
  {
    TrailIsToOld(es, Own(n), q);
    MapsFollowBytes(es, n, Trail(es, Own(n))[q].value, q);
  }

  lemma OrderKept(cs: seq<TextChange>, p: nat, p': nat, q: nat, q': nat)
    requires Proper(cs) && ToNew(cs, p) == Some(q) && ToNew(cs, p') == Some(q')
    ensures (p < p' <==> q < q') && (p == p' <==> q == q')
  {
    MapIsIncreasing(cs, p, p');
    MapIsIncreasing(cs, p', p);
  }

  lemma MappedByte(s: State, q: nat)
    requires Ok(s) && Synced(s) && Tracks(s) && q < |s.text| && ToOld(s.log.value, q).Some?
    ensures var p := ToOld(s.log.value, q).value;
            p < |s.compiled.value.text| && s.compiled.value.text[p] == s.text[q] && ToNew(s.log.value, p) == Some(q)
  {
    var from, p := s.compiled.value.text, ToOld(s.log.value, q).value;
    FitProper(s.edits, |from|);
    MapsAreInverse(s.log.value, p, q);
    TrailKeepsBytes(s.edits, Own(|from|), from, from);
    TrailIsToOld(s.edits, Own(|from|), q);
    SameBytes(s.edits, from, p, q);
  }

  /** No position of the old text, its end included, is mapped past the end of the new one. */
  lemma EndsInside(es: seq<Edit>, s: Text, p: nat)
    requires Fit(es, |s|) && p <= |s| && ToNew(Summaries(es), p).Some?
    ensures ToNew(Summaries(es), p).value <= |Replay(es, s)|
  {
    var cs, q := Summaries(es), ToNew(Summaries(es), p).value;
    var t := Trail(es, Own(|s|));
    TrailKeepsBytes(es, Own(|s|), s, s);
    FitProper(es, |s|);
    TrailLength(es, Own(|s|));
    MapsAreInverse(cs, |s|, |t|);
    MapIsIncreasing(cs, p, |s|);
    MapIsIncreasing(cs, |s|, p);
  }
}
