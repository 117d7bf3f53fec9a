/** The monitor hub's extension registry (src-tauri/src/ws_server.rs): a map from
    window id to the connected extension's identity, its link's sender and its last
    state; one receive loop per link turns inbound messages into registry updates.
    Each link's mpsc channel is an outbox of serialized messages. */
module WsServer {
  import opened Protocol

  /** Identifies one accepted connection (one receive loop and one channel). */
  type LinkId = nat

  datatype ExtensionInfo = ExtensionInfo(windowId: string, workspaceName: string, extensionVersion: string)

  /** A registry entry; `sender` is the link whose channel the entry's sender feeds. */
  datatype ConnectedExtension = ConnectedExtension(info: ExtensionInfo, sender: LinkId, lastState: Option<AntigravityState>)

  type Registry = map<string, ConnectedExtension>

  /** A WsMessage payload as the hub reads it: decoded as ExtensionInfo, decoded as
      AntigravityState, and its `workspaceName` field when that is a string. */
  datatype Payload = Payload(asInfo: Option<ExtensionInfo>, asState: Option<AntigravityState>, workspaceName: Option<string>)

  datatype WsMessage = WsMessage(msgType: string, payload: Payload, id: string)

  /** One item of a link's receive stream: a text frame (and whether it parsed as a
      WsMessage), a Close frame, a stream error, or any other frame. */
  datatype Incoming = Text(parsed: Option<WsMessage>) | CloseFrame | StreamError(reason: string) | OtherFrame

  /** A link's channel: the messages it accepted, and whether its receiver is alive. */
  datatype Channel = Channel(queued: seq<string>, open: bool)

  /** What `get_connected_extensions` lists per entry. */
  datatype Listed = Listed(windowId: string, workspaceName: string, lastState: Option<AntigravityState>)

  datatype SendOutcome = Ok | Err(message: string)

  /** The Display text of the channel's send error once its receiver is gone. */
  const ClosedChannelError := "channel closed"

  /** Every entry is keyed by its own window id. */
  ghost predicate WellKeyed(r: Registry) {
    forall k :: k in r ==> r[k].info.windowId == k
  }

  /** The receive loop's state: the registry, the link's `window_id`, and the
      workspace names simulateEnter asked the operating system to press Enter for. */
  datatype LinkState = LinkState(registry: Registry, windowId: Option<string>, keypresses: seq<string>)

  /** One parsed text frame. */
  function HandleText(link: LinkId, s: LinkState, m: WsMessage): LinkState {
    if m.msgType == "hello" then
      match m.payload.asInfo
      case Some(info) =>
        LinkState(s.registry[info.windowId := ConnectedExtension(info, link, None)], Some(info.windowId), s.keypresses)
      case None => s
    else if m.msgType == "stateChanged" then
      if s.windowId.Some? && m.payload.asState.Some? && s.windowId.value in s.registry then
        s.(registry := s.registry[s.windowId.value := s.registry[s.windowId.value].(lastState := m.payload.asState)])
      else s
    else if m.msgType == "simulateEnter" then
      s.(keypresses := s.keypresses + [m.payload.workspaceName.GetOr("")])
    else s
  }

  /** Close frames and stream errors end the loop. */
  predicate Ends(f: Incoming) {
    f.CloseFrame? || f.StreamError?
  }

  /** One received item that does not end the loop. */
  function Step(link: LinkId, s: LinkState, f: Incoming): LinkState {
    match f
    case Text(Some(m)) => HandleText(link, s, m)
    case _ => s
  }

  /** The loop over a link's stream, up to its end, a Close frame or an error. */
  function RunLoop(link: LinkId, s: LinkState, frames: seq<Incoming>): LinkState
    decreases |frames|
  {
    if frames == [] || Ends(frames[0]) then s
    else RunLoop(link, Step(link, s, frames[0]), frames[1..])
  }

  /** The cleanup after the loop: only the link's most recent window id is removed. */
  function Cleanup(s: LinkState): (r: Registry)
    ensures s.windowId.Some? ==> r.Keys == s.registry.Keys - {s.windowId.value}
    ensures s.windowId.None? ==> r == s.registry
    ensures forall k :: k in r ==> r[k] == s.registry[k]
  {
    if s.windowId.Some? then s.registry - {s.windowId.value} else s.registry
  }

  /** The window ids of the decodable hellos among `frames`. */
  function HelloIds(frames: seq<Incoming>): set<string> {
    if frames == [] then {}
    else
      (match frames[0]
       case Text(Some(m)) =>
         if m.msgType == "hello" && m.payload.asInfo.Some? then {m.payload.asInfo.value.windowId} else {}
       case _ => {})
      + HelloIds(frames[1..])
  }

  function HelloFrame(info: ExtensionInfo): Incoming {
    Text(Some(WsMessage("hello", Payload(Some(info), None, None), "hello")))
  }

  function StateChangedFrame(state: AntigravityState): Incoming {
    Text(Some(WsMessage("stateChanged", Payload(None, Some(state), None), "push")))
  }

  /** A hello with a decodable payload inserts (overwriting) its entry with no state
      and makes its window id the link's. This only documents the hello branch of
      one step; the loop lemmas below are what build on it. */
  lemma HelloRegisters(link: LinkId, s: LinkState, info: ExtensionInfo)
    ensures var t := Step(link, s, HelloFrame(info));
      t.registry == s.registry[info.windowId := ConnectedExtension(info, link, None)] &&
      t.windowId == Some(info.windowId)
  {
  }

  /** A stateChanged after a hello replaces the last state of the link's entry only,
      and only while that entry exists. This only documents the stateChanged branch
      of one step; the loop lemmas below are what build on it. */
  lemma StateChangedUpdatesOwnEntry(link: LinkId, s: LinkState, st: AntigravityState)
    requires s.windowId.Some?
    ensures var t := Step(link, s, StateChangedFrame(st));
      var w := s.windowId.value;
      t.windowId == s.windowId &&
      (w in s.registry ==> t.registry == s.registry[w := s.registry[w].(lastState := Some(st))]) &&
      (w !in s.registry ==> t.registry == s.registry)
  {
  }

  /** Responses, unknown types, unparseable and non-text frames change neither the
      registry nor the link's window id. In particular a `state` reply does not
      refresh the cached state; only stateChanged does. */
  lemma OtherFramesLeaveRegistry(link: LinkId, s: LinkState, f: Incoming)
    requires f.Text? && f.parsed.Some? ==> f.parsed.value.msgType !in {"hello", "stateChanged"}
    ensures Step(link, s, f).registry == s.registry
    ensures Step(link, s, f).windowId == s.windowId
  {
  }

  /** Before any hello on the link, nothing the link sends changes the registry. */
  lemma {:induction false} LoopBeforeHello(link: LinkId, s: LinkState, frames: seq<Incoming>)
    requires s.windowId.None? && HelloIds(frames) == {}
    ensures RunLoop(link, s, frames).registry == s.registry
    ensures RunLoop(link, s, frames).windowId.None?
    decreases |frames|
  {
    if frames != [] && !Ends(frames[0]) {
      assert HelloIds(frames[1..]) <= HelloIds(frames);
      LoopBeforeHello(link, Step(link, s, frames[0]), frames[1..]);
    }
  }

  /** A loop only touches the entries its own hellos named (and the one it started
      with): every other entry keeps its presence and its contents. */
  lemma {:induction false} LoopTouchesOwnEntries(link: LinkId, s: LinkState, frames: seq<Incoming>, k: string)
    requires k !in HelloIds(frames) && s.windowId != Some(k)
    ensures var t := RunLoop(link, s, frames);
      t.windowId != Some(k) && (k in t.registry <==> k in s.registry) &&
      (k in s.registry ==> t.registry[k] == s.registry[k])
    decreases |frames|
  {
    if frames != [] && !Ends(frames[0]) {
      assert HelloIds(frames[1..]) <= HelloIds(frames);
      LoopTouchesOwnEntries(link, Step(link, s, frames[0]), frames[1..], k);
    }
  }

  /** Registry entries stay keyed by their own window id through a loop. */
  lemma {:induction false} LoopKeepsWellKeyed(link: LinkId, s: LinkState, frames: seq<Incoming>)
    requires WellKeyed(s.registry)
    requires s.windowId.Some? && s.windowId.value in s.registry ==> s.registry[s.windowId.value].info.windowId == s.windowId.value
    ensures WellKeyed(RunLoop(link, s, frames).registry)
    decreases |frames|
  {
    if frames != [] && !Ends(frames[0]) {
      LoopKeepsWellKeyed(link, Step(link, s, frames[0]), frames[1..]);
    }
  }

  /** Two hellos on one link, then Close: the cleanup removes only the second entry,
      so the entry of the earlier hello stays in the registry. */
  lemma EarlierHelloSurvives(link: LinkId, registry: Registry, a: ExtensionInfo, b: ExtensionInfo)
    requires a.windowId != b.windowId
    ensures var s := RunLoop(link, LinkState(registry, None, []), [HelloFrame(a), HelloFrame(b), CloseFrame]);
      var r := Cleanup(s);
      r == (registry - {b.windowId})[a.windowId := ConnectedExtension(a, link, None)]
  {
    var s0 := LinkState(registry, None, []);
    var frames := [HelloFrame(a), HelloFrame(b), CloseFrame];
    var s1 := Step(link, s0, frames[0]);
    var s2 := Step(link, s1, frames[1]);
    assert frames[1..][1..] == [CloseFrame];
    assert RunLoop(link, s0, frames) == RunLoop(link, s1, frames[1..]) == RunLoop(link, s2, [CloseFrame]) == s2;
    assert Cleanup(s2) == (registry - {b.windowId})[a.windowId := ConnectedExtension(a, link, None)];
  }

  /** The links some entry's sender feeds. */
  function Senders(r: Registry): set<LinkId> {
    set k | k in r :: r[k].sender
  }

  /** The entries among `keys` whose sender is `link`. */
  function EntriesOn(r: Registry, keys: set<string>, link: LinkId): set<string> {
    set k | k in keys && k in r && r[k].sender == link
  }

  lemma EntriesOnGrow(r: Registry, done: set<string>, k: string, link: LinkId)
    requires k in r && k !in done
    ensures |EntriesOn(r, done + {k}, link)| == |EntriesOn(r, done, link)| + if r[k].sender == link then 1 else 0
  {
    if r[k].sender == link {
      assert EntriesOn(r, done + {k}, link) == EntriesOn(r, done, link) + {k};
    } else {
      assert EntriesOn(r, done + {k}, link) == EntriesOn(r, done, link);
    }
  }

  class Hub {
    var registry: Registry
    var channels: map<LinkId, Channel>
    /** The `window_id` variable of each running receive loop. */
    var loops: map<LinkId, Option<string>>
    var keypresses: seq<string>
    var nextLink: LinkId

    ghost predicate Valid()
      reads this
    {
      WellKeyed(registry) &&
      Senders(registry) <= channels.Keys &&
      (forall l :: l in loops ==> l in channels && channels[l].open) &&
      (forall l :: l in channels ==> l < nextLink)
    }

    /** start_ws_server: an empty registry. */
    constructor ()
      ensures Valid() && registry == map[] && channels == map[] && loops == map[] && keypresses == []
    {
      registry := map[];
      channels := map[];
      loops := map[];
      keypresses := [];
      nextLink := 0;
    }

    /** A handshake completes: a new link with its channel and a loop whose
        `window_id` is None. */
    method Accept() returns (link: LinkId)
      requires Valid()
      modifies this
      ensures Valid()
      ensures link !in old(channels)
      ensures channels == old(channels)[link := Channel([], true)] && loops == old(loops)[link := None]
      ensures registry == old(registry) && keypresses == old(keypresses)
    {
      link := nextLink;
      nextLink := nextLink + 1;
      channels := channels[link := Channel([], true)];
      loops := loops[link := None];
    }

    /** One item of link `link`'s stream; returns whether the loop ends. */
    method Receive(link: LinkId, f: Incoming) returns (stop: bool)
      requires Valid() && link in loops
      modifies this`registry, this`loops, this`keypresses
      ensures Valid() && link in loops
      ensures stop == Ends(f)
      ensures var t := if stop then LinkState(old(registry), old(loops[link]), old(keypresses))
                       else Step(link, LinkState(old(registry), old(loops[link]), old(keypresses)), f);
        registry == t.registry && loops == old(loops)[link := t.windowId] && keypresses == t.keypresses
    {
      stop := Ends(f);
      if !stop {
        var t := Step(link, LinkState(registry, loops[link], keypresses), f);
        LoopKeepsWellKeyed(link, LinkState(registry, loops[link], keypresses), [f]);
        assert [f][1..] == [];
        registry := t.registry;
        loops := loops[link := t.windowId];
        keypresses := t.keypresses;
      }
    }

    /** The end of the loop: remove the link's most recent window id, abort the
        forwarding task (which closes the channel). */
    method Finish(link: LinkId)
      requires Valid() && link in loops
      modifies this`registry, this`loops, this`channels
      ensures Valid()
      ensures registry == Cleanup(LinkState(old(registry), old(loops[link]), keypresses))
      ensures loops == old(loops) - {link}
      ensures channels == old(channels)[link := old(channels[link]).(open := false)]
    {
      registry := Cleanup(LinkState(registry, loops[link], keypresses));
      channels := channels[link := channels[link].(open := false)];
      loops := loops - {link};
    }

    /** One link's whole receive loop over a fresh link's stream, then its cleanup. */
    method RunLink(link: LinkId, frames: seq<Incoming>)
      requires Valid() && link in loops && loops[link] == None
      modifies this`registry, this`loops, this`keypresses, this`channels
      ensures Valid()
      ensures var s := RunLoop(link, LinkState(old(registry), None, old(keypresses)), frames);
        registry == Cleanup(s) && keypresses == s.keypresses &&
        loops == old(loops) - {link} && channels == old(channels)[link := old(channels[link]).(open := false)]
    {
      ghost var start := LinkState(registry, None, keypresses);
      var i := 0;
      var stop := false;
      while i < |frames| && !stop
        invariant 0 <= i <= |frames|
        invariant Valid() && link in loops && channels == old(channels)
        invariant loops == old(loops)[link := loops[link]]
        invariant stop ==> LinkState(registry, loops[link], keypresses) == RunLoop(link, start, frames)
        invariant !stop ==> RunLoop(link, LinkState(registry, loops[link], keypresses), frames[i..]) == RunLoop(link, start, frames)
      {
        ghost var before := LinkState(registry, loops[link], keypresses);
        assert frames[i..][1..] == frames[i + 1..];
        stop := Receive(link, frames[i]);
        i := i + 1;
      }
      Finish(link);
    }

    /** send_to_extension */
    method SendToExtension(windowId: string, json: string) returns (r: SendOutcome)
      requires Valid()
      modifies this`channels
      ensures Valid()
      ensures windowId !in registry ==> r == Err("Extension not connected: " + windowId) && channels == old(channels)
      ensures windowId in registry && !old(channels[registry[windowId].sender]).open ==>
        r == Err("Send failed: " + ClosedChannelError) && channels == old(channels)
      ensures windowId in registry && old(channels[registry[windowId].sender]).open ==>
        var l := registry[windowId].sender;
        r == Ok && channels == old(channels)[l := old(channels[l]).(queued := old(channels[l]).queued + [json])]
    {
      if windowId !in registry {
        return Err("Extension not connected: " + windowId);
      }
      var l := registry[windowId].sender;
      if !channels[l].open {
        return Err("Send failed: " + ClosedChannelError);
      }
      channels := channels[l := channels[l].(queued := channels[l].queued + [json])];
      r := Ok;
    }

    /** get_connected_extensions: one triple per entry, in the map's (unspecified) order. */
    method GetConnectedExtensions() returns (r: seq<Listed>)
      requires Valid()
      ensures |r| == |registry|
      ensures forall i :: 0 <= i < |r| ==>
        r[i].windowId in registry &&
        r[i] == Listed(r[i].windowId, registry[r[i].windowId].info.workspaceName, registry[r[i].windowId].lastState)
      ensures forall k :: k in registry ==> exists i :: 0 <= i < |r| && r[i].windowId == k
      ensures forall i, j :: 0 <= i < j < |r| ==> r[i].windowId != r[j].windowId
    {
      r := [];
      var pending := registry.Keys;
      while pending != {}
        invariant pending <= registry.Keys
        invariant |r| + |pending| == |registry.Keys|
        invariant ListedExcept(registry, pending, r)
        decreases |pending|
      {
        var k :| k in pending;
        ListedStep(registry, pending, r, k);
        r := r + [Listed(k, registry[k].info.workspaceName, registry[k].lastState)];
        pending := pending - {k};
      }
    }

    /** broadcast: the same message to every entry's sender, errors ignored. A link
        receives it once per entry it feeds; closed channels receive nothing. */
    method Broadcast(json: string)
      requires Valid()
      modifies this`channels
      ensures Valid()
      ensures Delivered(old(channels), channels, registry, registry.Keys, json)
    {
      channels := SendEach(channels, registry, json);
    }
  }

  /** `r` lists every entry of `registry` outside `pending` once, and nothing else. */
  ghost predicate ListedExcept(registry: Registry, pending: set<string>, r: seq<Listed>) {
    (forall i :: 0 <= i < |r| ==>
      r[i].windowId in registry && r[i].windowId !in pending &&
      r[i] == Listed(r[i].windowId, registry[r[i].windowId].info.workspaceName, registry[r[i].windowId].lastState)) &&
    (forall k :: k in registry && k !in pending ==> exists i :: 0 <= i < |r| && r[i].windowId == k) &&
    (forall i, j :: 0 <= i < j < |r| ==> r[i].windowId != r[j].windowId)
  }

  lemma ListedStep(registry: Registry, pending: set<string>, r: seq<Listed>, k: string)
    requires ListedExcept(registry, pending, r) && k in pending && pending <= registry.Keys
    ensures ListedExcept(registry, pending - {k}, r + [Listed(k, registry[k].info.workspaceName, registry[k].lastState)])
  {
    var r' := r + [Listed(k, registry[k].info.workspaceName, registry[k].lastState)];
    forall k' | k' in registry && k' !in pending - {k}
      ensures exists i :: 0 <= i < |r'| && r'[i].windowId == k'
    {
      if k' == k {
        assert r'[|r'| - 1].windowId == k';
      } else {
        var i :| 0 <= i < |r| && r[i].windowId == k';
        assert r'[i] == r[i];
      }
    }
  }

  /** The loop of `broadcast` over the registry's entries, on the channel map. */
  method SendEach(ch: map<LinkId, Channel>, r: Registry, json: string) returns (out: map<LinkId, Channel>)
    requires Senders(r) <= ch.Keys
    ensures Delivered(ch, out, r, r.Keys, json)
    ensures forall l :: l in out ==> out[l].open == ch[l].open
  {
    out := ch;
    var pending := r.Keys;
    ghost var done: set<string> := {};
    DeliveredNothing(ch, r, json);
    while pending != {}
      invariant pending + done == r.Keys && pending !! done
      invariant Delivered(ch, out, r, done, json)
      decreases |pending|
    {
      var k :| k in pending;
      SenderListed(r, k);
      DeliveredStep(ch, out, r, done, k, json);
      out := Push(out, r[k].sender, json);
      pending := pending - {k};
      done := done + {k};
    }
    DeliveredKeepsOpen(ch, out, r, done, json);
  }

  lemma SenderListed(r: Registry, k: string)
    requires k in r
    ensures r[k].sender in Senders(r)
  {
  }

  lemma DeliveredKeepsOpen(before: map<LinkId, Channel>, after: map<LinkId, Channel>, r: Registry, done: set<string>, json: string)
    requires Delivered(before, after, r, done, json)
    ensures forall l :: l in after ==> l in before && after[l].open == before[l].open
  {
    forall l | l in after
      ensures l in before && after[l].open == before[l].open
    {
      assert Fed(before[l], after[l], json, |EntriesOn(r, done, l)|);
    }
  }

  /** A channel that accepted `n` sends of `json`: only an open channel accepts
      them, each lands after what it held before. */
  ghost predicate Fed(before: Channel, after: Channel, json: string, n: nat) {
    after.open == before.open &&
    (before.open ==>
       |after.queued| == |before.queued| + n &&
       after.queued[..|before.queued|] == before.queued &&
       forall i :: |before.queued| <= i < |after.queued| ==> after.queued[i] == json) &&
    (!before.open ==> after == before)
  }

  /** One send on link `l`'s channel. */
  function Push(ch: map<LinkId, Channel>, l: LinkId, json: string): map<LinkId, Channel>
    requires l in ch
  {
    if ch[l].open then ch[l := ch[l].(queued := ch[l].queued + [json])] else ch
  }

  /** After sending `json` for the entries `done`: each channel got one copy per
      entry among `done` it feeds, and nothing else changed. */
  ghost predicate Delivered(before: map<LinkId, Channel>, after: map<LinkId, Channel>, r: Registry, done: set<string>, json: string) {
    after.Keys == before.Keys &&
    forall l :: l in after ==> Fed(before[l], after[l], json, |EntriesOn(r, done, l)|)
  }

  lemma DeliveredNothing(ch: map<LinkId, Channel>, r: Registry, json: string)
    ensures Delivered(ch, ch, r, {}, json)
  {
    forall l | l in ch
      ensures Fed(ch[l], ch[l], json, |EntriesOn(r, {}, l)|)
    {
      assert EntriesOn(r, {}, l) == {};
    }
  }

  lemma DeliveredStep(before: map<LinkId, Channel>, after: map<LinkId, Channel>, r: Registry, done: set<string>, k: string, json: string)
    requires Delivered(before, after, r, done, json)
    requires k in r && k !in done && r[k].sender in after
    ensures Delivered(before, Push(after, r[k].sender, json), r, done + {k}, json)
  {
    var l := r[k].sender;
    var next := Push(after, l, json);
    forall l' | l' in next
      ensures Fed(before[l'], next[l'], json, |EntriesOn(r, done + {k}, l')|)
    {
      EntriesOnGrow(r, done, k, l');
      if l' == l && before[l].open {
        var m := |before[l].queued|;
        assert next[l].queued[..m] == after[l].queued[..m];
      }
    }
  }

  /** hello{workspaceName: "demo"} lists one entry without a state; a stateChanged
      then lists that state for the same identity. */
  method HelloThenStateScenario(st: AntigravityState) returns (before: seq<Listed>, after: seq<Listed>)
    ensures before == [Listed("ext-1", "demo", None)]
    ensures after == [Listed("ext-1", "demo", Some(st))]
  {
    var hub := new Hub();
    var link := hub.Accept();
    var info := ExtensionInfo("ext-1", "demo", "0.1.0");
    HelloRegisters(link, LinkState(hub.registry, None, hub.keypresses), info);
    var stop := hub.Receive(link, HelloFrame(info));
    before := ListOne(hub, "ext-1", ConnectedExtension(info, link, None));
    StateChangedUpdatesOwnEntry(link, LinkState(hub.registry, hub.loops[link], hub.keypresses), st);
    stop := hub.Receive(link, StateChangedFrame(st));
    after := ListOne(hub, "ext-1", ConnectedExtension(info, link, Some(st)));
  }

  /** The listing of a hub with a single entry. */
  method ListOne(hub: Hub, k: string, e: ConnectedExtension) returns (r: seq<Listed>)
    requires hub.Valid() && hub.registry == map[k := e]
    ensures r == [Listed(k, e.info.workspaceName, e.lastState)]
  {
    r := hub.GetConnectedExtensions();
    assert |r| == 1 && r[0].windowId in hub.registry;
  }

  /** A hub whose one link said hello as "ext-a", then as "ext-b", then closed. */
  method StaleHub() returns (hub: Hub, link: LinkId)
    ensures fresh(hub) && hub.Valid()
    ensures hub.registry == map["ext-a" := ConnectedExtension(ExtensionInfo("ext-a", "a", "0.1.0"), link, None)]
    ensures link in hub.channels && !hub.channels[link].open
  {
    hub := new Hub();
    link := hub.Accept();
    var a := ExtensionInfo("ext-a", "a", "0.1.0");
    var b := ExtensionInfo("ext-b", "b", "0.1.0");
    EarlierHelloSurvives(link, map[], a, b);
    hub.RunLink(link, [HelloFrame(a), HelloFrame(b), CloseFrame]);
    assert hub.registry == map["ext-a" := ConnectedExtension(a, link, None)];
  }

  /** Cleanup removes only the link's last window id: the earlier entry stays
      listed after the link closed. */
  method StaleEntryListed() returns (listed: seq<Listed>)
    ensures listed == [Listed("ext-a", "a", None)]
  {
    var hub, link := StaleHub();
    listed := ListOne(hub, "ext-a", ConnectedExtension(ExtensionInfo("ext-a", "a", "0.1.0"), link, None));
  }

  /** A send to that stale entry fails, because its link's channel is closed. */
  method StaleEntryUnreachable() returns (sent: SendOutcome)
    ensures sent == Err("Send failed: channel closed")
  {
    var hub, link := StaleHub();
    assert "Send failed: " + ClosedChannelError == "Send failed: channel closed";
    sent := hub.SendToExtension("ext-a", "{}");
  }
}
