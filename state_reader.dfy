/** The State Reader and State Watcher of the companion extension
    (bob-helper-extension/src/stateReader.ts): seven host context flags reduce to a
    five-boolean snapshot; a module-wide signature suppresses repeated log lines;
    a watcher delivers a snapshot only when it differs from the last one delivered. */
module StateReader {
  import opened Protocol
  import opened Editor

  /** A context value as the strict comparisons `=== true` and `=== false` see it:
      `undefined`, and any non-boolean value, is Unavailable. */
  datatype Flag = True | False | Unavailable

  /** How one `executeCommand('getContext', key)` call settles. */
  datatype ContextRead = Returned(value: Flag) | Threw

  /** The seven context keys, in the order they are read. */
  const ContextKeys: seq<string> := [
    "antigravity.canAcceptOrRejectCommand",
    "antigravity.canAcceptOrRejectAllAgentEditsInFile",
    "antigravity.canAcceptOrRejectFocusedHunk",
    "antigravity.canTriggerTerminalCommandAction",
    "antigravity.isAgentModeInputBoxFocused",
    "antigravity.canRetry",
    "antigravity.agentHasError"
  ]

  /** The seven reads, one per key of ContextKeys. */
  datatype ContextReads = ContextReads(
    canAcceptOrReject: ContextRead,
    canAcceptAllEdits: ContextRead,
    canAcceptHunk: ContextRead,
    canTriggerTerminal: ContextRead,
    isAgentInputFocused: ContextRead,
    canRetry: ContextRead,
    agentHasError: ContextRead)

  datatype RawFlags = RawFlags(
    canAcceptOrReject: Flag,
    canAcceptAllEdits: Flag,
    canAcceptHunk: Flag,
    canTriggerTerminal: Flag,
    isAgentInputFocused: Flag,
    canRetry: Flag,
    agentHasError: Flag)

  /** getContext: a read that throws is caught and becomes `undefined`. */
  function GetContext(read: ContextRead): Flag {
    match read
    case Returned(v) => v
    case Threw => Unavailable
  }

  function ReadFlags(ctx: ContextReads): RawFlags {
    RawFlags(
      GetContext(ctx.canAcceptOrReject),
      GetContext(ctx.canAcceptAllEdits),
      GetContext(ctx.canAcceptHunk),
      GetContext(ctx.canTriggerTerminal),
      GetContext(ctx.isAgentInputFocused),
      GetContext(ctx.canRetry),
      GetContext(ctx.agentHasError))
  }

  predicate AnyAcceptFlag(f: RawFlags) {
    f.canAcceptOrReject == True || f.canAcceptAllEdits == True || f.canAcceptHunk == True
  }

  /** The reduction rules of readAntigravityState. */
  function Reduce(f: RawFlags, workspaceName: string): (s: AntigravityState)
    ensures s.workspaceName == workspaceName
    // Enter is offered exactly when no accept flag and no terminal flag is asserted and
    // the input box is not known to be unfocused.
    ensures s.hasEnterButton <==>
      !AnyAcceptFlag(f) && f.canTriggerTerminal != True && f.isAgentInputFocused != False
    // Exactly one of: ready for input, working, something awaiting acceptance.
    ensures s.hasEnterButton || s.agentWorking || s.hasAcceptButton || s.terminalPending
    ensures s.hasEnterButton ==> !s.agentWorking && !s.hasAcceptButton && !s.terminalPending
    ensures s.agentWorking ==> !s.hasAcceptButton && !s.terminalPending
    // Fail-open: "working" needs the input-focused flag to be known and false.
    ensures s.agentWorking ==> f.isAgentInputFocused == False
  {
    var hasAcceptButton := AnyAcceptFlag(f);
    var terminalPending := f.canTriggerTerminal == True;
    var agentWorking := !hasAcceptButton && !terminalPending && f.isAgentInputFocused == False;
    var hasEnterButton := !agentWorking && !hasAcceptButton && !terminalPending;
    var hasRetryButton := f.canRetry == True || f.agentHasError == True;
    AntigravityState(hasAcceptButton, hasRetryButton, hasEnterButton, agentWorking, terminalPending, workspaceName)
  }

  /** The snapshot readAntigravityState returns. */
  function ReadState(ctx: ContextReads, folder: Option<string>): AntigravityState {
    Reduce(ReadFlags(ctx), WorkspaceName(folder, "unknown"))
  }

  /** The flag `f` with one of its seven entries (by position) made Unavailable. */
  function Degrade(f: RawFlags, which: nat): RawFlags
    requires which < 7
  {
    if which == 0 then f.(canAcceptOrReject := Unavailable)
    else if which == 1 then f.(canAcceptAllEdits := Unavailable)
    else if which == 2 then f.(canAcceptHunk := Unavailable)
    else if which == 3 then f.(canTriggerTerminal := Unavailable)
    else if which == 4 then f.(isAgentInputFocused := Unavailable)
    else if which == 5 then f.(canRetry := Unavailable)
    else f.(agentHasError := Unavailable)
  }

  /** Fail-open policy: losing any one context value never takes the Enter button away. */
  lemma UnavailableNeverHidesEnter(f: RawFlags, name: string, which: nat)
    requires which < 7
    requires Reduce(f, name).hasEnterButton
    ensures Reduce(Degrade(f, which), name).hasEnterButton
  {
    var g := Degrade(f, which);
    assert !AnyAcceptFlag(f) && f.canTriggerTerminal != True && f.isAgentInputFocused != False;
    assert !AnyAcceptFlag(g) && g.canTriggerTerminal != True && g.isAgentInputFocused != False;
  }

  /** hasAcceptButton and terminalPending hold exactly when their flags are exactly true. */
  lemma AcceptAndTerminalFlags(f: RawFlags, name: string)
    ensures Reduce(f, name).hasAcceptButton <==>
      (f.canAcceptOrReject == True || f.canAcceptAllEdits == True || f.canAcceptHunk == True)
    ensures Reduce(f, name).terminalPending <==> f.canTriggerTerminal == True
  {
  }

  /** The retry button depends only on canRetry and agentHasError. */
  lemma RetryIndependent(f: RawFlags, g: RawFlags, name: string, name': string)
    requires f.canRetry == g.canRetry && f.agentHasError == g.agentHasError
    ensures Reduce(f, name).hasRetryButton == Reduce(g, name').hasRetryButton
    ensures Reduce(f, name).hasRetryButton <==> f.canRetry == True || f.agentHasError == True
  {
  }

  /** A context read that throws counts as an unavailable value: it never aborts the
      whole read and never differs from a read that returned `undefined`. */
  lemma ThrownReadIsUnavailable(ctx: ContextReads, folder: Option<string>)
    ensures ReadState(ctx.(isAgentInputFocused := Threw), folder)
         == ReadState(ctx.(isAgentInputFocused := Returned(Unavailable)), folder)
    ensures ReadState(ctx.(canAcceptOrReject := Threw), folder)
         == ReadState(ctx.(canAcceptOrReject := Returned(Unavailable)), folder)
    ensures ReadState(ctx.(canTriggerTerminal := Threw), folder)
         == ReadState(ctx.(canTriggerTerminal := Returned(Unavailable)), folder)
    ensures ReadState(ctx.(canAcceptAllEdits := Threw), folder)
         == ReadState(ctx.(canAcceptAllEdits := Returned(Unavailable)), folder)
    ensures ReadState(ctx.(canAcceptHunk := Threw), folder)
         == ReadState(ctx.(canAcceptHunk := Returned(Unavailable)), folder)
    ensures ReadState(ctx.(canRetry := Threw), folder)
         == ReadState(ctx.(canRetry := Returned(Unavailable)), folder)
    ensures ReadState(ctx.(agentHasError := Threw), folder)
         == ReadState(ctx.(agentHasError := Returned(Unavailable)), folder)
  {
  }

  // ---------------------------------------------------------------------------
  // The log-line signature

  function BoolText(b: bool): string {
    if b then "true" else "false"
  }

  /** The `${hasAccept}-${hasEnter}-${working}-${terminal}-${hasRetry}` signature. */
  function Signature(s: AntigravityState): string {
    BoolText(s.hasAcceptButton) + ("-" + (BoolText(s.hasEnterButton) + ("-" + (BoolText(s.agentWorking)
      + ("-" + (BoolText(s.terminalPending) + ("-" + BoolText(s.hasRetryButton))))))))
  }

  /** The five booleans of two snapshots agree (the workspace name is not compared). */
  predicate SameFlags(a: AntigravityState, b: AntigravityState) {
    a.hasAcceptButton == b.hasAcceptButton && a.hasEnterButton == b.hasEnterButton &&
    a.agentWorking == b.agentWorking && a.terminalPending == b.terminalPending &&
    a.hasRetryButton == b.hasRetryButton
  }

  lemma BoolTextCancel(x: bool, y: bool, r1: string, r2: string)
    requires BoolText(x) + r1 == BoolText(y) + r2
    ensures x == y && r1 == r2
  {
    assert (BoolText(x) + r1)[0] == BoolText(x)[0];
    assert (BoolText(y) + r2)[0] == BoolText(y)[0];
    assert r1 == (BoolText(x) + r1)[|BoolText(x)|..];
    assert r2 == (BoolText(y) + r2)[|BoolText(y)|..];
  }

  lemma DashCancel(r1: string, r2: string)
    requires "-" + r1 == "-" + r2
    ensures r1 == r2
  {
    assert r1 == ("-" + r1)[1..];
    assert r2 == ("-" + r2)[1..];
  }

  /** Two signatures are equal exactly when the five booleans agree: the log dedup
      reacts to every flag change and to nothing else (not to the workspace name). */
  lemma SignatureInjective(a: AntigravityState, b: AntigravityState)
    ensures Signature(a) == Signature(b) <==> SameFlags(a, b)
  {
    if Signature(a) == Signature(b) {
      var ra4 := "-" + BoolText(a.hasRetryButton);
      var rb4 := "-" + BoolText(b.hasRetryButton);
      var ra3 := "-" + (BoolText(a.terminalPending) + ra4);
      var rb3 := "-" + (BoolText(b.terminalPending) + rb4);
      var ra2 := "-" + (BoolText(a.agentWorking) + ra3);
      var rb2 := "-" + (BoolText(b.agentWorking) + rb3);
      var ra1 := "-" + (BoolText(a.hasEnterButton) + ra2);
      var rb1 := "-" + (BoolText(b.hasEnterButton) + rb2);
      BoolTextCancel(a.hasAcceptButton, b.hasAcceptButton, ra1, rb1);
      DashCancel(BoolText(a.hasEnterButton) + ra2, BoolText(b.hasEnterButton) + rb2);
      BoolTextCancel(a.hasEnterButton, b.hasEnterButton, ra2, rb2);
      DashCancel(BoolText(a.agentWorking) + ra3, BoolText(b.agentWorking) + rb3);
      BoolTextCancel(a.agentWorking, b.agentWorking, ra3, rb3);
      DashCancel(BoolText(a.terminalPending) + ra4, BoolText(b.terminalPending) + rb4);
      BoolTextCancel(a.terminalPending, b.terminalPending, ra4, rb4);
      DashCancel(BoolText(a.hasRetryButton), BoolText(b.hasRetryButton));
      BoolTextCancel(a.hasRetryButton, b.hasRetryButton, [], []);
    }
  }

  /** The module-level `lastStateJson` and the log lines it lets through. */
  class StateChangeLog {
    var lastStateJson: string
    /** Signatures of the "State changed" lines emitted, oldest first. */
    var lines: seq<string>

    constructor ()
      ensures lastStateJson == "" && lines == []
    {
      lastStateJson := "";
      lines := [];
    }

    /** readAntigravityState: reduce the reads, log only on a changed signature. */
    method ReadAntigravityState(ctx: ContextReads, folder: Option<string>) returns (s: AntigravityState)
      modifies this
      ensures s == ReadState(ctx, folder)
      ensures lastStateJson == Signature(s)
      ensures lines == old(lines) + (if Signature(s) != old(lastStateJson) then [Signature(s)] else [])
    {
      s := ReadState(ctx, folder);
      var current := Signature(s);
      if current != lastStateJson {
        lines := lines + [current];
        lastStateJson := current;
      }
    }
  }

  /** The first read after start-up always logs: no signature is empty. */
  lemma SignatureNonEmpty(s: AntigravityState)
    ensures Signature(s) != ""
  {
    assert Signature(s)[0] == BoolText(s.hasAcceptButton)[0];
  }

  // ---------------------------------------------------------------------------
  // The State Watcher

  /** StateWatcher: a repeating timer (`polling`) and the last snapshot delivered to
      the callback. `lastState == None` stands for the initial `''`, which equals the
      serialization of no snapshot; serialization is taken to be injective. */
  class StateWatcher {
    var polling: bool
    var pollMs: nat
    var lastState: Option<AntigravityState>

    constructor ()
      ensures !polling && lastState == None
    {
      polling := false;
      pollMs := 0;
      lastState := None;
    }

    /** start: a no-op while an interval exists. */
    method Start(ms: nat)
      modifies this
      ensures polling && lastState == old(lastState)
      ensures pollMs == if old(polling) then old(pollMs) else ms
    {
      if polling { return; }
      polling := true;
      pollMs := ms;
    }

    /** stop: cancels the interval; idempotent. */
    method Stop()
      modifies this
      ensures !polling && lastState == old(lastState) && pollMs == old(pollMs)
    {
      if polling {
        polling := false;
      }
    }

    /** One timer tick, given the snapshot the tick read. Returns whether the
        callback `onChange` is invoked (with `s`); `lastState` is updated first. */
    method Tick(s: AntigravityState) returns (fired: bool)
      modifies this
      ensures fired <==> old(lastState) != Some(s)
      ensures lastState == Some(s)
      ensures polling == old(polling) && pollMs == old(pollMs)
    {
      fired := lastState != Some(s);
      if fired {
        lastState := Some(s);
      }
    }
  }

  /** The snapshots a watcher whose last delivered snapshot is `last` passes to its
      callback over a sequence of ticks reading `polls`. */
  function Deliveries(last: Option<AntigravityState>, polls: seq<AntigravityState>): seq<AntigravityState>
    decreases |polls|
  {
    if polls == [] then []
    else if last == Some(polls[0]) then Deliveries(last, polls[1..])
    else [polls[0]] + Deliveries(Some(polls[0]), polls[1..])
  }

  /** The watcher's `lastState` after the ticks `polls`. */
  function LastAfter(last: Option<AntigravityState>, polls: seq<AntigravityState>): Option<AntigravityState> {
    if polls == [] then last else Some(polls[|polls| - 1])
  }

  /** Deliveries never repeat a snapshot back to back, the first one differs from the
      last snapshot delivered before, and every delivered snapshot was read. */
  lemma {:induction false} DeliveriesChangeEachTime(last: Option<AntigravityState>, polls: seq<AntigravityState>)
    ensures var d := Deliveries(last, polls);
      |d| <= |polls| &&
      (d != [] ==> last != Some(d[0])) &&
      (forall i :: 0 <= i < |d| - 1 ==> d[i] != d[i + 1]) &&
      (forall i :: 0 <= i < |d| ==> d[i] in polls)
    decreases |polls|
  {
    if polls != [] {
      DeliveriesChangeEachTime(last, polls[1..]);
      DeliveriesChangeEachTime(Some(polls[0]), polls[1..]);
      var rest := polls[1..];
      assert forall x :: x in rest ==> x in polls;
    }
  }

  /** Repeated identical ticks: none fires when the snapshot was already delivered,
      exactly one (the first) otherwise. */
  lemma {:induction false} DeliveriesOfRepeats(last: Option<AntigravityState>, s: AntigravityState, polls: seq<AntigravityState>)
    requires forall i :: 0 <= i < |polls| ==> polls[i] == s
    ensures Deliveries(last, polls) == if polls == [] || last == Some(s) then [] else [s]
    decreases |polls|
  {
    if polls != [] {
      DeliveriesOfRepeats(Some(s), s, polls[1..]);
      if last == Some(s) {
        DeliveriesOfRepeats(last, s, polls[1..]);
      }
    }
  }

  /** One tick, then the rest. */
  lemma DeliveriesCons(last: Option<AntigravityState>, x: AntigravityState, rest: seq<AntigravityState>)
    ensures Deliveries(last, [x] + rest) ==
      (if last == Some(x) then [] else [x]) + Deliveries(Some(x), rest)
  {
    assert ([x] + rest)[1..] == rest;
  }

  lemma LastAfterAppend(last: Option<AntigravityState>, p: seq<AntigravityState>, q: seq<AntigravityState>)
    ensures LastAfter(last, p + q) == LastAfter(LastAfter(last, p), q)
  {
    if q == [] {
      assert p + q == p;
    } else {
      assert (p + q)[|p + q| - 1] == q[|q| - 1];
    }
  }

  /** Ticks compose: the deliveries of `p + q` are those of `p` followed by those of
      `q` from the state `p` left behind. */
  lemma {:induction false} DeliveriesAppend(last: Option<AntigravityState>, p: seq<AntigravityState>, q: seq<AntigravityState>)
    ensures Deliveries(last, p + q) == Deliveries(last, p) + Deliveries(LastAfter(last, p), q)
    ensures LastAfter(last, p + q) == LastAfter(LastAfter(last, p), q)
    decreases |p|
  {
    if p == [] {
      assert p + q == q;
    } else {
      var x := p[0];
      assert p == [x] + p[1..];
      assert p + q == [x] + (p[1..] + q);
      DeliveriesAppend(Some(x), p[1..], q);
      DeliveriesCons(last, x, p[1..]);
      DeliveriesCons(last, x, p[1..] + q);
    }
    LastAfterAppend(last, p, q);
  }

  /** One tick, alone. */
  lemma DeliveriesSingle(last: Option<AntigravityState>, x: AntigravityState)
    ensures Deliveries(last, [x]) == if last == Some(x) then [] else [x]
  {
    assert [x][1..] == [];
  }

  /** The interval running over the snapshots `polls`, one Tick per snapshot: the
      callback receives exactly the deliveries of `polls`. */
  method RunTicks(w: StateWatcher, polls: seq<AntigravityState>) returns (delivered: seq<AntigravityState>)
    modifies w
    ensures delivered == Deliveries(old(w.lastState), polls)
    ensures w.lastState == LastAfter(old(w.lastState), polls)
    ensures w.polling == old(w.polling) && w.pollMs == old(w.pollMs)
  {
    ghost var start := w.lastState;
    delivered := [];
    for i := 0 to |polls|
      invariant delivered == Deliveries(start, polls[..i])
      invariant w.lastState == LastAfter(start, polls[..i])
      invariant w.polling == old(w.polling) && w.pollMs == old(w.pollMs)
    {
      ghost var before := w.lastState;
      var fired := w.Tick(polls[i]);
      if fired {
        delivered := delivered + [polls[i]];
      }
      assert polls[..i + 1] == polls[..i] + [polls[i]];
      DeliveriesAppend(start, polls[..i], [polls[i]]);
      DeliveriesSingle(before, polls[i]);
    }
    assert polls[..|polls|] == polls;
  }
}
