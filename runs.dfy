/** Whole sessions of the configuration-phase client handler: any interleaving
    of client packets, deferred plugin-message callbacks, the backend's
    FinishedUpdate hook and a disconnect, and what holds over all of them. */
module ConfigRuns {
  import opened Protocol
  import opened ConfigRouting

  /** One thing that happens to the handler. `Complete(k, cb)` runs the
      callback of the `k`-th outstanding plugin-message event; the event
      manager may complete them in any order. */
  datatype Input =
    | Deliver(env: Env, pc: PacketContext)
    | Complete(index: nat, callback: CallbackEnv)
    | BackendFinished(serverConnected: bool, clientWriteOk: bool)
    | Disconnect

  /** The effect of one input; a `Complete` for an event that is not
      outstanding does nothing. */
  function Apply(s: Session, i: Input): (r: Outcome) {
    match i
    case Deliver(env, pc) => HandlePacketStep(s, env, pc)
    case Complete(k, cb) => if k < |s.pending| then PluginCallbackStep(s, k, cb) else Outcome(s, [])
    case BackendFinished(connected, writeOk) => BackendFinishStep(s, connected, writeOk).out
    case Disconnect => Outcome(s, [Teardown])
  }

  /** The final state and all effects, in order, of a sequence of inputs. */
  function Run(s: Session, ins: seq<Input>): (r: Outcome)
    decreases |ins|
  {
    if ins == [] then Outcome(s, [])
    else
      var first := Apply(s, ins[0]);
      var rest := Run(first.state, ins[1..]);
      Outcome(rest.state, first.effects + rest.effects)
  }

  /** The input is the client's FinishedUpdate. */
  predicate ClientFinishes(i: Input) {
    i.Deliver? && i.pc.Known? && i.pc.packet.FinishedUpdate?
  }

  lemma ApplyBalanced(s: Session, i: Input)
    ensures PauseBalanced(s, Apply(s, i))
  {
    match i
    case Deliver(env, pc) =>
      HandlePacketBalanced(s, env, pc);
    case Complete(k, cb) =>
      if k < |s.pending| {
        PluginCallbackResumesOnce(s, k, cb);
      }
    case BackendFinished(connected, writeOk) =>
      BackendFinishBalanced(s, connected, writeOk);
    case Disconnect =>
  }

  /** What handling one client packet preserves. */
  lemma DeliverFacts(s: Session, env: Env, pc: PacketContext)
    ensures HandlePacketStep(s, env, pc).state.switchDone == (s.switchDone || (pc.Known? && pc.packet.FinishedUpdate?))
    ensures (forall e :: e in HandlePacketStep(s, env, pc).effects ==> !e.FireClientBrand?) ==>
            HandlePacketStep(s, env, pc).state.brandChannel == s.brandChannel
    ensures (s.pending == [] ==> s.autoReading) ==>
            (HandlePacketStep(s, env, pc).state.pending == [] ==> HandlePacketStep(s, env, pc).state.autoReading)
  {
    if !Relayed(pc) && pc.packet.PluginMessage? {
      var m := PluginMessageStep(s, env, pc.packet.channel, pc.packet.data);
      if m.state.brandChannel != s.brandChannel {
        assert FireClientBrand(env.brand) in m.effects;
      }
    }
  }

  /** What one input preserves; each run-level lemma below extends one of
      these to whole sessions. */
  lemma ApplyFacts(s: Session, i: Input)
    ensures Apply(s, i).state.clientBrand == s.clientBrand
    ensures s.switchDone ==> Apply(s, i).state.switchDone
    ensures !ClientFinishes(i) ==> Apply(s, i).state.switchDone == s.switchDone
    ensures (forall e :: e in Apply(s, i).effects ==> !e.FireClientBrand?) ==>
            Apply(s, i).state.brandChannel == s.brandChannel
    ensures forall e :: e in Apply(s, i).effects && e.WriteClient? ==> e.packet == FinishedUpdate
    ensures Apply(s, i).state.writer != s.writer ==>
            Apply(s, i).state.writer == Play && WriteClient(FinishedUpdate) in Apply(s, i).effects
    ensures (s.pending == [] ==> s.autoReading) ==>
            (Apply(s, i).state.pending == [] ==> Apply(s, i).state.autoReading)
  {
    match i
    case Deliver(env, pc) =>
      DeliverFacts(s, env, pc);
    case Complete(k, cb) =>
      if k < |s.pending| {
        CallbackFacts(s, k, cb);
      }
    case BackendFinished(connected, writeOk) =>
      FinishFacts(s, connected, writeOk);
    case Disconnect =>
  }

  /** What running one plugin-message callback preserves. */
  lemma CallbackFacts(s: Session, k: nat, cb: CallbackEnv)
    requires k < |s.pending|
    ensures var r := PluginCallbackStep(s, k, cb);
      r.state == s.(autoReading := true, pending := r.state.pending) &&
      forall e :: e in r.effects ==> !e.WriteClient? && !e.FireClientBrand?
  {
  }

  /** What the backend-finished hook preserves. */
  lemma FinishFacts(s: Session, connected: bool, writeOk: bool)
    ensures var r := BackendFinishStep(s, connected, writeOk).out;
      r.state == s.(writer := r.state.writer) &&
      (forall e :: e in r.effects ==> !e.FireClientBrand? && (e.WriteClient? ==> e.packet == FinishedUpdate)) &&
      (r.state.writer != s.writer ==> r.state.writer == Play && WriteClient(FinishedUpdate) in r.effects)
  {
    var r := BackendFinishStep(s, connected, writeOk);
    if connected {
      assert r.out.effects[|r.out.effects| - 1] == WriteClient(FinishedUpdate);
    }
  }

  /** A session of two inputs, given the outcome of each. */
  lemma RunTwo(s: Session, a: Input, b: Input, first: Outcome, second: Outcome)
    requires first == Apply(s, a) && second == Apply(first.state, b)
    ensures Run(s, [a, b]) == Outcome(second.state, first.effects + second.effects)
  {
    var ins := [a, b];
    assert ins[1..] == [b];
    assert Run(first.state, [b]) == Outcome(second.state, second.effects + []);
    assert second.effects + [] == second.effects;
  }

  /** Delivering a plugin message is `PluginMessageStep`. */
  lemma DeliverPluginMessage(s: Session, env: Env, channel: string, data: Data, raw: seq<byte>)
    ensures Apply(s, Deliver(env, Known(PluginMessage(channel, data), raw))) == PluginMessageStep(s, env, channel, data)
  {
  }

  /** Over any session, every pause of auto-reading is matched by exactly one
      resume, except for the events whose callbacks are still outstanding:
      reads are resumed once per suspension, whatever the verdicts. */
  lemma {:induction false} RunBalanced(s: Session, ins: seq<Input>)
    ensures PauseBalanced(s, Run(s, ins))
    decreases |ins|
  {
    if ins != [] {
      var first := Apply(s, ins[0]);
      var rest := Run(first.state, ins[1..]);
      ApplyBalanced(s, ins[0]);
      RunBalanced(first.state, ins[1..]);
      assert multiset(first.effects + rest.effects) == multiset(first.effects) + multiset(rest.effects);
    }
  }

  /** Once every callback has run, pauses and resumes are equal in number. */
  lemma {:induction false} DrainedRunResumesEveryPause(s: Session, ins: seq<Input>)
    requires s.pending == [] && Run(s, ins).state.pending == []
    ensures multiset(Run(s, ins).effects)[SetAutoReading(false)] ==
            multiset(Run(s, ins).effects)[SetAutoReading(true)]
  {
    RunBalanced(s, ins);
  }

  /** Reading is never left switched off once no plugin-message event is
      outstanding. */
  lemma {:induction false} ReadingOnWhenDrained(s: Session, ins: seq<Input>)
    requires s.pending == [] ==> s.autoReading
    ensures Run(s, ins).state.pending == [] ==> Run(s, ins).state.autoReading
    decreases |ins|
  {
    if ins != [] {
      var first := Apply(s, ins[0]);
      ApplyFacts(s, ins[0]);
      ReadingOnWhenDrained(first.state, ins[1..]);
    }
  }

  /** `configSwitchDone`, once completed, stays completed, and only the
      client's FinishedUpdate completes it. */
  lemma {:induction false} SwitchDoneOnlyByClientFinish(s: Session, ins: seq<Input>)
    ensures s.switchDone ==> Run(s, ins).state.switchDone
    ensures (forall k :: 0 <= k < |ins| ==> !ClientFinishes(ins[k])) ==>
            Run(s, ins).state.switchDone == s.switchDone
    decreases |ins|
  {
    if ins != [] {
      var first := Apply(s, ins[0]);
      ApplyFacts(s, ins[0]);
      SwitchDoneOnlyByClientFinish(first.state, ins[1..]);
      assert forall k :: 0 <= k < |ins[1..]| ==> ins[1..][k] == ins[k + 1];
    }
  }

  /** The handler never stores a brand on the player: the client brand is
      whatever it was, across any session. */
  lemma {:induction false} ClientBrandNeverStored(s: Session, ins: seq<Input>)
    ensures Run(s, ins).state.clientBrand == s.clientBrand
    decreases |ins|
  {
    if ins != [] {
      var first := Apply(s, ins[0]);
      ApplyFacts(s, ins[0]);
      ClientBrandNeverStored(first.state, ins[1..]);
    }
  }

  /** `brandChannel` changes only in a session that fired a client-brand event. */
  lemma {:induction false} BrandChannelOnlyWithBrandEvent(s: Session, ins: seq<Input>)
    ensures (forall e :: e in Run(s, ins).effects ==> !e.FireClientBrand?) ==>
            Run(s, ins).state.brandChannel == s.brandChannel
    decreases |ins|
  {
    if ins != [] {
      var first := Apply(s, ins[0]);
      ApplyFacts(s, ins[0]);
      BrandChannelOnlyWithBrandEvent(first.state, ins[1..]);
    }
  }

  /** The only packet this handler ever writes to the client is FinishedUpdate,
      and the writer state changes only to Play, in a session that relayed it. */
  lemma {:induction false} ClientOnlyGetsFinishedUpdate(s: Session, ins: seq<Input>)
    ensures forall e :: e in Run(s, ins).effects && e.WriteClient? ==> e.packet == FinishedUpdate
    ensures Run(s, ins).state.writer != s.writer ==>
            Run(s, ins).state.writer == Play && WriteClient(FinishedUpdate) in Run(s, ins).effects
    decreases |ins|
  {
    if ins != [] {
      var first := Apply(s, ins[0]);
      ApplyFacts(s, ins[0]);
      ClientOnlyGetsFinishedUpdate(first.state, ins[1..]);
    }
  }

  /** A plugin message on a registered channel whose event policy allows
      without rewriting, with the connection still up when the callback runs:
      the backend receives exactly the received message, between one pause
      and one resume, and nothing else is written. */
  lemma PluginMessageRoundTrip(s: Session, env: Env, channel: string, data: Data, raw: seq<byte>)
    requires env.inFlight.Present? && !env.isBrand && !env.isBungeeCord && env.channelId.Some?
    ensures Run(s, [Deliver(env, Known(PluginMessage(channel, data), raw)),
                    Complete(|s.pending|, CallbackEnv(true, data, true, true))]) ==
            Outcome(s.(autoReading := true),
                    [SetAutoReading(false), FirePluginMessage(InFlight, env.channelId.value, data),
                     WriteServer(InFlight, PluginMessage(channel, data)), SetAutoReading(true)])
  {
    var a := Deliver(env, Known(PluginMessage(channel, data), raw));
    var b := Complete(|s.pending|, CallbackEnv(true, data, true, true));
    var first := PluginMessageStep(s, env, channel, data);
    DeliverPluginMessage(s, env, channel, data, raw);
    assert first.state == s.(autoReading := false, pending := s.pending + [channel]);
    var second := PluginCallbackStep(first.state, |s.pending|, CallbackEnv(true, data, true, true));
    RunTwo(s, a, b, first, second);
    assert (s.pending + [channel])[..|s.pending|] + (s.pending + [channel])[|s.pending| + 1..] == s.pending;
    assert second.state == s.(autoReading := true);
    assert second.effects == [WriteServer(InFlight, PluginMessage(channel, data)), SetAutoReading(true)];
  }

  /** Whatever the verdict and the connection's state at callback time, a
      registered plugin message followed by its callback pauses and resumes
      reading exactly once each and writes at most the message's channel
      with the event's data. */
  lemma PluginMessageResumedOnce(s: Session, env: Env, channel: string, data: Data, raw: seq<byte>, cb: CallbackEnv)
    requires env.inFlight.Present? && !env.isBrand && !env.isBungeeCord && env.channelId.Some?
    ensures var r := Run(s, [Deliver(env, Known(PluginMessage(channel, data), raw)), Complete(|s.pending|, cb)]);
      r.state == s.(autoReading := true) &&
      multiset(r.effects)[SetAutoReading(false)] == 1 &&
      multiset(r.effects)[SetAutoReading(true)] == 1 &&
      (forall e :: e in r.effects && IsWrite(e) ==> e == WriteServer(InFlight, PluginMessage(channel, cb.data))) &&
      (WriteServer(InFlight, PluginMessage(channel, cb.data)) in r.effects <==> cb.allowed && cb.active && cb.connected)
  {
    var a := Deliver(env, Known(PluginMessage(channel, data), raw));
    var b := Complete(|s.pending|, cb);
    var first := PluginMessageStep(s, env, channel, data);
    DeliverPluginMessage(s, env, channel, data, raw);
    assert first.state == s.(autoReading := false, pending := s.pending + [channel]);
    var second := PluginCallbackStep(first.state, |s.pending|, cb);
    PluginCallbackResumesOnce(first.state, |s.pending|, cb);
    RunTwo(s, a, b, first, second);
    assert (s.pending + [channel])[..|s.pending|] + (s.pending + [channel])[|s.pending| + 1..] == s.pending;
    assert multiset(first.effects + second.effects) == multiset(first.effects) + multiset(second.effects);
  }

  /** The client announces a brand on `channel`; later the backend finishes
      its configuration while the player's client brand is still empty. The
      brand event carries the client's brand, but the backend is sent the
      encoding of the empty string on `channel`, before FinishedUpdate is
      relayed, and the player's brand stays empty. */
  lemma BrandAnnouncedAsEmptyString(s: Session, env: Env, channel: string, data: Data, raw: seq<byte>)
    requires s.clientBrand == "" && channel != ""
    requires env.inFlight.Present? && env.isBrand
    ensures Run(s, [Deliver(env, Known(PluginMessage(channel, data), raw)), BackendFinished(true, true)]) ==
            Outcome(s.(brandChannel := channel, writer := Play),
                    [FireClientBrand(env.brand),
                     WriteServer(FinishingServer, PluginMessage(channel, EncodedString(""))),
                     WriteClient(FinishedUpdate)])
  {
    var first := PluginMessageStep(s, env, channel, data);
    DeliverPluginMessage(s, env, channel, data, raw);
    RunTwo(s, Deliver(env, Known(PluginMessage(channel, data), raw)), BackendFinished(true, true),
           first, BackendFinishStep(first.state, true, true).out);
  }

  /** Policy denies a cookie response for one key and lets a second one
      through without overrides: only the second is forwarded, unchanged. */
  lemma CookieDeniedThenForwarded(s: Session, denied: Env, allowed: Env, c1: Cookie, c2: Cookie, raw1: seq<byte>, raw2: seq<byte>)
    requires !denied.cookie.allowed
    requires allowed.cookie == CookieVerdict(true, None, None) && ReachableServer(allowed).Some?
    ensures Run(s, [Deliver(denied, Known(CookieResponse(c1), raw1)), Deliver(allowed, Known(CookieResponse(c2), raw2))]) ==
            Outcome(s, [FireCookieReceive(c1.key, c1.payload), FireCookieReceive(c2.key, c2.payload),
                        WriteServer(ReachableServer(allowed).value, CookieResponse(c2))])
  {
    var first := CookieStep(s, denied, c1);
    var second := CookieStep(s, allowed, c2);
    RunTwo(s, Deliver(denied, Known(CookieResponse(c1), raw1)), Deliver(allowed, Known(CookieResponse(c2), raw2)),
           first, second);
  }
}
