/** The registry of mailbox watchers (server/src/mailbox_manager.rs), one action
    per lock operation, map access or channel operation of `subscribe` and
    `notify`, interleaved over any number of threads. */
module Mailbox {
  type Thread = nat
  type MailboxId = nat
  type Channel = nat
  type Checkpoint = nat

  /** Where a thread is. The `Sub` states belong to `subscribe`, the `Not` states
      to `notify`; a thread without an entry is outside both. */
  datatype Pc =
    | SubReading(id: MailboxId, init: Checkpoint)      // holds the read lock
    | SubFound(id: MailboxId, chan: Channel)           // holds the read lock
    | SubGap(id: MailboxId, init: Checkpoint)          // holds nothing
    | SubWriting(id: MailboxId, init: Checkpoint)      // holds the write lock
    | SubEntered(id: MailboxId, chan: Channel)         // holds the write lock
    | NotReading(id: MailboxId, cp: Checkpoint)        // holds the read lock
    | NotFound(id: MailboxId, chan: Channel, cp: Checkpoint)  // holds the read lock
    | NotGap(id: MailboxId)                            // holds nothing
    | NotWriting(id: MailboxId)                        // holds the write lock
    | NotClosed(id: MailboxId, chan: Channel)          // holds the write lock

  datatype Receiver = Receiver(id: MailboxId, chan: Channel)

  datatype State = State(
    senders: map<MailboxId, Channel>,
    threads: map<Thread, Pc>,
    receivers: map<nat, Receiver>,
    value: map<Channel, Checkpoint>,
    nextChannel: Channel)

  datatype Action =
    | SubscribeStart(t: Thread, id: MailboxId, init: Checkpoint)
    | SubscribeLookup(t: Thread)
    | SubscribeFound(t: Thread, r: nat)
    | SubscribeLock(t: Thread)
    | SubscribeEntry(t: Thread)
    | SubscribeEntered(t: Thread, r: nat)
    | NotifyStart(t: Thread, id: MailboxId, cp: Checkpoint)
    | NotifyLookup(t: Thread)
    | NotifySend(t: Thread)
    | NotifyLock(t: Thread)
    | NotifyCheck(t: Thread)
    | NotifyRemove(t: Thread)
    | CloneReceiver(r: nat, copy: nat)
    | DropReceiver(r: nat)

  predicate HoldsRead(pc: Pc) {
    pc.SubReading? || pc.SubFound? || pc.NotReading? || pc.NotFound?
  }

  predicate HoldsWrite(pc: Pc) {
    pc.SubWriting? || pc.SubEntered? || pc.NotWriting? || pc.NotClosed?
  }

  ghost predicate NoWriter(s: State) {
    forall t :: t in s.threads ==> !HoldsWrite(s.threads[t])
  }

  ghost predicate Unlocked(s: State) {
    forall t :: t in s.threads ==> !HoldsRead(s.threads[t]) && !HoldsWrite(s.threads[t])
  }

  /** `watch::Sender::is_closed`: no receiver of the channel is left. */
  ghost predicate Closed(s: State, chan: Channel) {
    forall r :: r in s.receivers ==> s.receivers[r].chan != chan
  }

  ghost predicate Enabled(s: State, a: Action) {
    match a
    case SubscribeStart(t, _, _) => t !in s.threads && NoWriter(s)
    case SubscribeLookup(t) => t in s.threads && s.threads[t].SubReading?
    case SubscribeFound(t, r) => t in s.threads && s.threads[t].SubFound? && r !in s.receivers
    case SubscribeLock(t) => t in s.threads && s.threads[t].SubGap? && Unlocked(s)
    case SubscribeEntry(t) => t in s.threads && s.threads[t].SubWriting?
    case SubscribeEntered(t, r) => t in s.threads && s.threads[t].SubEntered? && r !in s.receivers
    case NotifyStart(t, _, _) => t !in s.threads && NoWriter(s)
    case NotifyLookup(t) => t in s.threads && s.threads[t].NotReading?
    case NotifySend(t) => t in s.threads && s.threads[t].NotFound?
    case NotifyLock(t) => t in s.threads && s.threads[t].NotGap? && Unlocked(s)
    case NotifyCheck(t) => t in s.threads && s.threads[t].NotWriting?
    case NotifyRemove(t) => t in s.threads && s.threads[t].NotClosed?
    case CloneReceiver(r, copy) => r in s.receivers && copy !in s.receivers
    case DropReceiver(r) => r in s.receivers
  }

  ghost function Goto(s: State, t: Thread, pc: Pc): State {
    s.(threads := s.threads[t := pc])
  }

  ghost function Leave(s: State, t: Thread): State {
    s.(threads := s.threads - {t})
  }

  ghost function Attach(s: State, r: nat, id: MailboxId, chan: Channel): State {
    s.(receivers := s.receivers[r := Receiver(id, chan)])
  }

  ghost function Next(s: State, a: Action): State
    requires Enabled(s, a)
  {
    match a
    case SubscribeStart(t, id, init) => Goto(s, t, SubReading(id, init))
    case SubscribeLookup(t) =>
      var pc := s.threads[t];
      if pc.id in s.senders then Goto(s, t, SubFound(pc.id, s.senders[pc.id]))
      else Goto(s, t, SubGap(pc.id, pc.init))
    case SubscribeFound(t, r) =>
      var pc := s.threads[t];
      Attach(Leave(s, t), r, pc.id, pc.chan)
    case SubscribeLock(t) =>
      var pc := s.threads[t];
      Goto(s, t, SubWriting(pc.id, pc.init))
    case SubscribeEntry(t) =>
      var pc := s.threads[t];
      if pc.id in s.senders then Goto(s, t, SubEntered(pc.id, s.senders[pc.id]))
      else
        var created := s.(senders := s.senders[pc.id := s.nextChannel],
                          value := s.value[s.nextChannel := pc.init],
                          nextChannel := s.nextChannel + 1);
        Goto(created, t, SubEntered(pc.id, s.nextChannel))
    case SubscribeEntered(t, r) =>
      var pc := s.threads[t];
      Attach(Leave(s, t), r, pc.id, pc.chan)
    case NotifyStart(t, id, cp) => Goto(s, t, NotReading(id, cp))
    case NotifyLookup(t) =>
      var pc := s.threads[t];
      if pc.id in s.senders then Goto(s, t, NotFound(pc.id, s.senders[pc.id], pc.cp))
      else Leave(s, t)
    case NotifySend(t) =>
      var pc := s.threads[t];
      if Closed(s, pc.chan) then Goto(s, t, NotGap(pc.id))
      else Leave(s.(value := s.value[pc.chan := pc.cp]), t)
    case NotifyLock(t) =>
      Goto(s, t, NotWriting(s.threads[t].id))
    case NotifyCheck(t) =>
      var pc := s.threads[t];
      if pc.id in s.senders && Closed(s, s.senders[pc.id])
      then Goto(s, t, NotClosed(pc.id, s.senders[pc.id]))
      else Leave(s, t)
    case NotifyRemove(t) =>
      Leave(s.(senders := s.senders - {s.threads[t].id}), t)
    case CloneReceiver(r, copy) => s.(receivers := s.receivers[copy := s.receivers[r]])
    case DropReceiver(r) => s.(receivers := s.receivers - {r})
  }

  // ----- the invariant

  /** Readers and writers exclude each other. */
  ghost predicate LockInv(s: State) {
    forall t, u :: t in s.threads && u in s.threads && t != u && HoldsWrite(s.threads[t]) ==>
      !HoldsRead(s.threads[u]) && !HoldsWrite(s.threads[u])
  }

  /** A channel a thread has looked up is still the registered one, and a channel
      about to be removed has no receivers. */
  ghost predicate ThreadInv(s: State, pc: Pc) {
    && (pc.SubFound? || pc.SubEntered? || pc.NotFound? || pc.NotClosed? ==>
          pc.id in s.senders && s.senders[pc.id] == pc.chan)
    && (pc.NotClosed? ==> Closed(s, pc.chan))
  }

  ghost predicate ThreadsInv(s: State) {
    forall t :: t in s.threads ==> ThreadInv(s, s.threads[t])
  }

  /** Every live receiver listens on the channel registered for its mailbox. */
  ghost predicate ReceiversInv(s: State) {
    forall r :: r in s.receivers ==>
      var x := s.receivers[r];
      x.id in s.senders && s.senders[x.id] == x.chan
  }

  /** Channels are never shared between mailboxes nor reused. */
  ghost predicate ChannelsInv(s: State) {
    && (forall id :: id in s.senders ==> s.senders[id] < s.nextChannel)
    && (forall i, j :: i in s.senders && j in s.senders && s.senders[i] == s.senders[j] ==> i == j)
  }

  ghost predicate Inv(s: State) {
    LockInv(s) && ThreadsInv(s) && ReceiversInv(s) && ChannelsInv(s)
  }

  /** Thread `t` may be at `pc` as far as the locks of the others are concerned. */
  ghost predicate MayHold(s: State, t: Thread, pc: Pc) {
    && (HoldsWrite(pc) ==>
          forall u :: u in s.threads && u != t ==> !HoldsRead(s.threads[u]) && !HoldsWrite(s.threads[u]))
    && (HoldsRead(pc) ==> forall u :: u in s.threads && u != t ==> !HoldsWrite(s.threads[u]))
  }

  /** The registry and the receivers are untouched. */
  ghost predicate SameRegistry(s: State, s': State) {
    s'.senders == s.senders && s'.receivers == s.receivers && s'.nextChannel == s.nextChannel
  }

  lemma MoveKeeps(s: State, s': State, t: Thread, pc: Pc)
    requires Inv(s) && SameRegistry(s, s') && s'.threads == s.threads[t := pc]
    requires MayHold(s, t, pc) && ThreadInv(s, pc)
    ensures Inv(s')
  {
  }

  lemma LeaveKeeps(s: State, s': State, t: Thread)
    requires Inv(s) && SameRegistry(s, s') && s'.threads == s.threads - {t}
    ensures Inv(s')
  {
  }

  /** A thread that holds a lock may keep it or turn to another state of its kind. */
  lemma KeepsLock(s: State, t: Thread, pc: Pc)
    requires Inv(s) && t in s.threads
    requires HoldsWrite(pc) ==> HoldsWrite(s.threads[t])
    requires HoldsRead(pc) ==> HoldsRead(s.threads[t])
    ensures MayHold(s, t, pc)
  {
  }

  /** A receiver of the registered channel is attached by a thread that leaves. */
  lemma AttachKeeps(s: State, t: Thread, r: nat)
    requires Inv(s) && t in s.threads && (s.threads[t].SubFound? || s.threads[t].SubEntered?) && r !in s.receivers
    ensures Inv(Attach(Leave(s, t), r, s.threads[t].id, s.threads[t].chan))
  {
    var x := s.threads[t];
    var s' := Attach(Leave(s, t), r, x.id, x.chan);
    forall u | u in s'.threads
      ensures ThreadInv(s', s'.threads[u])
    {
      assert s'.threads[u] == s.threads[u] && u != t;
    }
  }

  lemma CreateKeeps(s: State, t: Thread)
    requires Inv(s) && Enabled(s, SubscribeEntry(t)) && s.threads[t].id !in s.senders
    ensures Inv(Next(s, SubscribeEntry(t)))
  {
    var s' := Next(s, SubscribeEntry(t));
    forall u | u in s'.threads
      ensures ThreadInv(s', s'.threads[u])
    {
      assert u != t ==> s'.threads[u] == s.threads[u];
    }
  }

  lemma RemoveKeeps(s: State, t: Thread)
    requires Inv(s) && Enabled(s, NotifyRemove(t))
    ensures Inv(Next(s, NotifyRemove(t)))
  {
    var s' := Next(s, NotifyRemove(t));
    forall u | u in s'.threads
      ensures ThreadInv(s', s'.threads[u])
    {
      assert u != t && s'.threads[u] == s.threads[u];
    }
  }

  lemma ReceiverKeeps(s: State, a: Action)
    requires Inv(s) && Enabled(s, a) && (a.CloneReceiver? || a.DropReceiver?)
    ensures Inv(Next(s, a))
  {
  }

  lemma SubscribeKeeps(s: State, a: Action)
    requires Inv(s) && Enabled(s, a)
    requires a.SubscribeStart? || a.SubscribeLookup? || a.SubscribeLock? || a.SubscribeEntry?
    ensures Inv(Next(s, a))
  {
    var s', t := Next(s, a), a.t;
    if a.SubscribeEntry? && s.threads[t].id !in s.senders {
      CreateKeeps(s, t);
    } else {
      if !a.SubscribeStart? && !a.SubscribeLock? {
        KeepsLock(s, t, s'.threads[t]);
      }
      MoveKeeps(s, s', t, s'.threads[t]);
    }
  }

  lemma NotifyAcquires(s: State, a: Action)
    requires Inv(s) && Enabled(s, a) && (a.NotifyStart? || a.NotifyLock?)
    ensures Inv(Next(s, a))
  {
    MoveKeeps(s, Next(s, a), a.t, Next(s, a).threads[a.t]);
  }

  lemma NotifyProceeds(s: State, a: Action)
    requires Inv(s) && Enabled(s, a) && (a.NotifyLookup? || a.NotifySend? || a.NotifyCheck?)
    ensures Inv(Next(s, a))
  {
    var s', t := Next(s, a), a.t;
    if t in s'.threads {
      KeepsLock(s, t, s'.threads[t]);
      MoveKeeps(s, s', t, s'.threads[t]);
    } else {
      LeaveKeeps(s, s', t);
    }
  }

  lemma StepInv(s: State, a: Action)
    requires Inv(s) && Enabled(s, a)
    ensures Inv(Next(s, a))
  {
    match a
    case SubscribeFound(t, r) => AttachKeeps(s, t, r);
    case SubscribeEntered(t, r) => AttachKeeps(s, t, r);
    case NotifyRemove(t) => RemoveKeeps(s, t);
    case CloneReceiver(_, _) => ReceiverKeeps(s, a);
    case DropReceiver(_) => ReceiverKeeps(s, a);
    case SubscribeStart(_, _, _) => SubscribeKeeps(s, a);
    case SubscribeLookup(_) => SubscribeKeeps(s, a);
    case SubscribeLock(_) => SubscribeKeeps(s, a);
    case SubscribeEntry(_) => SubscribeKeeps(s, a);
    case NotifyStart(_, _, _) => NotifyAcquires(s, a);
    case NotifyLock(_) => NotifyAcquires(s, a);
    case _ => NotifyProceeds(s, a);
  }

  // ----- every run

  const START := State(map[], map[], map[], map[], 0)

  ghost predicate Run(states: seq<State>, actions: seq<Action>) {
    && |states| == |actions| + 1
    && states[0] == START
    && forall i :: 0 <= i < |actions| ==> Enabled(states[i], actions[i]) && states[i + 1] == Next(states[i], actions[i])
  }

  lemma {:induction false} RunInv(states: seq<State>, actions: seq<Action>, i: nat)
    requires Run(states, actions) && i < |states|
    ensures Inv(states[i])
  {
    if i > 0 {
      RunInv(states, actions, i - 1);
      StepInv(states[i - 1], actions[i - 1]);
    }
  }

  lemma OnlyRemoveRemoves(s: State, a: Action, id: MailboxId)
    requires Enabled(s, a) && id in s.senders && id !in Next(s, a).senders
    ensures a.NotifyRemove? && s.threads[a.t].id == id
  {
  }

  /** Removal only ever drops a channel nobody listens on. */
  lemma RemovalIsSafe(states: seq<State>, actions: seq<Action>, i: nat, id: MailboxId)
    requires Run(states, actions) && i < |actions|
    requires id in states[i].senders && id !in states[i + 1].senders
    ensures Closed(states[i], states[i].senders[id])
    ensures forall r :: r in states[i].receivers ==> states[i].receivers[r].id != id
  {
    RunInv(states, actions, i);
    OnlyRemoveRemoves(states[i], actions[i], id);
  }

  /** A thread inside a call of `notify(id, cp)` that has not hit a gap. */
  ghost predicate Notifying(s: State, t: Thread, id: MailboxId, chan: Channel, cp: Checkpoint) {
    t in s.threads && (s.threads[t] == NotReading(id, cp) || s.threads[t] == NotFound(id, chan, cp))
  }

  lemma ReceiverStays(s: State, a: Action, r: nat)
    requires Enabled(s, a) && r in s.receivers && r in Next(s, a).receivers
    ensures Next(s, a).receivers[r] == s.receivers[r]
  {
  }

  /** The step is one of this thread. */
  predicate StepOf(a: Action, t: Thread) {
    !a.CloneReceiver? && !a.DropReceiver? && a.t == t
  }

  lemma OthersDoNotMove(s: State, a: Action, t: Thread)
    requires Enabled(s, a) && t in s.threads && !StepOf(a, t)
    ensures t in Next(s, a).threads && Next(s, a).threads[t] == s.threads[t]
  {
  }

  lemma NotifyingStep(s: State, a: Action, t: Thread, r: nat, cp: Checkpoint)
    requires Inv(s) && Enabled(s, a) && r in s.receivers && r in Next(s, a).receivers
    requires Notifying(s, t, s.receivers[r].id, s.receivers[r].chan, cp)
    ensures Next(s, a).receivers[r] == s.receivers[r]
    ensures Notifying(Next(s, a), t, s.receivers[r].id, s.receivers[r].chan, cp)
            || (a == NotifySend(t) && s.receivers[r].chan in Next(s, a).value
                && Next(s, a).value[s.receivers[r].chan] == cp && t !in Next(s, a).threads)
  {
    ReceiverStays(s, a, r);
    if !StepOf(a, t) {
      OthersDoNotMove(s, a, t);
    }
  }

  /** A `notify` that starts and returns while a receiver of that mailbox is alive
      puts its checkpoint on that receiver's channel, whatever happens in between. */
  lemma {:induction false} NotifyReaches(states: seq<State>, actions: seq<Action>,
                                         i: nat, j: nat, t: Thread, r: nat, cp: Checkpoint)
    requires Run(states, actions) && i < j < |states|
    requires forall k :: i <= k <= j ==> r in states[k].receivers
    requires actions[i] == NotifyStart(t, states[i].receivers[r].id, cp)
    requires t !in states[j].threads
    ensures exists k :: i < k < j && actions[k] == NotifySend(t)
              && states[k + 1].receivers[r] == states[i].receivers[r]
              && states[i].receivers[r].chan in states[k + 1].value
              && states[k + 1].value[states[i].receivers[r].chan] == cp
  {
    var x := states[i].receivers[r];
    var k := i + 1;
    while true
      invariant i < k < j
      invariant states[k].receivers[r] == x
      invariant Notifying(states[k], t, x.id, x.chan, cp)
      decreases j - k
    {
      RunInv(states, actions, k);
      assert r in states[k].receivers && r in states[k + 1].receivers;
      assert states[k + 1] == Next(states[k], actions[k]);
      NotifyingStep(states[k], actions[k], t, r, cp);
      if actions[k] == NotifySend(t) && t !in states[k + 1].threads {
        return;
      }
      k := k + 1;
    }
  }

  // ----- subscribing

  /** A thread inside a call of `subscribe(id, init)`. */
  ghost predicate Subscribing(s: State, t: Thread, id: MailboxId, init: Checkpoint) {
    t in s.threads &&
    match s.threads[t]
    case SubReading(i, n) => i == id && n == init
    case SubGap(i, n) => i == id && n == init
    case SubWriting(i, n) => i == id && n == init
    case SubFound(i, _) => i == id
    case SubEntered(i, _) => i == id
    case _ => false
  }

  /** The call hands out a new receiver of the channel registered for its mailbox. */
  ghost predicate HandsOut(s: State, a: Action, t: Thread, id: MailboxId) {
    && (a.SubscribeFound? || a.SubscribeEntered?) && a.t == t && Enabled(s, a) && a.r !in s.receivers
    && a.r in Next(s, a).receivers && Next(s, a).receivers[a.r].id == id
    && id in Next(s, a).senders && Next(s, a).receivers[a.r].chan == Next(s, a).senders[id]
    && t !in Next(s, a).threads
  }

  lemma SubscribingStep(s: State, a: Action, t: Thread, id: MailboxId, init: Checkpoint)
    requires Inv(s) && Enabled(s, a) && Subscribing(s, t, id, init)
    ensures Subscribing(Next(s, a), t, id, init) || HandsOut(s, a, t, id)
  {
    if !StepOf(a, t) {
      OthersDoNotMove(s, a, t);
    }
  }

  /** A `subscribe` that returns has handed out a new receiver that listens on the
      channel registered for its mailbox, whatever happened in between. */
  lemma SubscribeReturns(states: seq<State>, actions: seq<Action>, i: nat, j: nat, t: Thread, id: MailboxId,
                         init: Checkpoint) returns (k: nat)
    requires Run(states, actions) && i < j < |states|
    requires actions[i] == SubscribeStart(t, id, init) && t !in states[j].threads
    ensures i < k < j && HandsOut(states[k], actions[k], t, id)
  {
    k := i + 1;
    while true
      invariant i < k < j
      invariant Subscribing(states[k], t, id, init)
      decreases j - k
    {
      RunInv(states, actions, k);
      assert Enabled(states[k], actions[k]) && states[k + 1] == Next(states[k], actions[k]);
      SubscribingStep(states[k], actions[k], t, id, init);
      if HandsOut(states[k], actions[k], t, id) {
        return;
      }
      k := k + 1;
    }
  }

  /** The thread has not looked up a channel yet. */
  ghost predicate Searching(s: State, t: Thread) {
    t in s.threads && (s.threads[t].SubReading? || s.threads[t].SubGap? || s.threads[t].SubWriting?)
  }

  lemma SearchingBefore(s: State, a: Action, t: Thread)
    requires Enabled(s, a) && Searching(Next(s, a), t) && !(a.SubscribeStart? && a.t == t)
    ensures Searching(s, t)
    ensures s.threads[t].id == Next(s, a).threads[t].id && s.threads[t].init == Next(s, a).threads[t].init
  {
    if !StepOf(a, t) && t in s.threads {
      OthersDoNotMove(s, a, t);
    }
  }

  /** A thread about to enter a channel was started with that mailbox and checkpoint. */
  lemma {:induction false} StartedWith(states: seq<State>, actions: seq<Action>, k: nat, t: Thread) returns (i: nat)
    requires Run(states, actions) && k < |states| && Searching(states[k], t)
    ensures i < k && actions[i] == SubscribeStart(t, states[k].threads[t].id, states[k].threads[t].init)
  {
    assert k > 0;
    i := k - 1;
    assert Enabled(states[i], actions[i]) && states[k] == Next(states[i], actions[i]);
    if !(actions[i].SubscribeStart? && actions[i].t == t) {
      SearchingBefore(states[i], actions[i], t);
      i := StartedWith(states, actions, i, t);
    }
  }

  /** Only a `subscribe` that enters a new channel registers one. */
  lemma OnlyEntryRegisters(s: State, a: Action, id: MailboxId)
    requires Inv(s) && Enabled(s, a) && id !in s.senders && id in Next(s, a).senders
    ensures a.SubscribeEntry? && s.threads[a.t].id == id
    ensures var c := Next(s, a).senders[id];
            c in Next(s, a).value && Next(s, a).value[c] == s.threads[a.t].init
    ensures forall other :: other in s.senders ==> s.senders[other] != Next(s, a).senders[id]
  {
  }

  /** A new channel starts with the checkpoint given to the `subscribe` that made it. */
  lemma NewChannelStartsAt(states: seq<State>, actions: seq<Action>, k: nat, id: MailboxId) returns (i: nat, t: Thread)
    requires Run(states, actions) && k < |actions|
    requires id !in states[k].senders && id in states[k + 1].senders
    ensures i < k && states[k + 1].senders[id] in states[k + 1].value
    ensures actions[i] == SubscribeStart(t, id, states[k + 1].value[states[k + 1].senders[id]])
  {
    RunInv(states, actions, k);
    assert Enabled(states[k], actions[k]) && states[k + 1] == Next(states[k], actions[k]);
    OnlyEntryRegisters(states[k], actions[k], id);
    t := actions[k].t;
    i := StartedWith(states, actions, k, t);
  }

  /** After that only a `notify` for this channel changes its checkpoint, to its own. */
  lemma OnlyNotifyChanges(s: State, a: Action, c: Channel)
    requires Inv(s) && Enabled(s, a) && c in s.value && c < s.nextChannel
    ensures c in Next(s, a).value
    ensures Next(s, a).value[c] != s.value[c] ==>
              a.NotifySend? && s.threads[a.t].chan == c && Next(s, a).value[c] == s.threads[a.t].cp
  {
  }

  // ----- what the steps of a call decide

  /** A look-up finds a channel exactly if one is registered, a send goes nowhere exactly
      if nobody listens, only a registered channel nobody listens on is removed, and then
      it is. */
  lemma StepExact(s: State, a: Action)
    requires Enabled(s, a)
    ensures a.SubscribeLookup? ==>
              var pc, s' := s.threads[a.t], Next(s, a);
              s'.threads[a.t] ==
                if pc.id in s.senders then SubFound(pc.id, s.senders[pc.id]) else SubGap(pc.id, pc.init)
    ensures a.SubscribeEntry? && s.threads[a.t].id in s.senders ==>
              Next(s, a).senders == s.senders && Next(s, a).value == s.value
    ensures a.NotifyLookup? ==> (a.t in Next(s, a).threads <==> s.threads[a.t].id in s.senders)
    ensures a.NotifySend? ==>
              var pc, s' := s.threads[a.t], Next(s, a);
              if exists r :: r in s.receivers && s.receivers[r].chan == pc.chan
              then a.t !in s'.threads && s'.value == s.value[pc.chan := pc.cp]
              else s'.value == s.value && a.t in s'.threads && s'.threads[a.t] == NotGap(pc.id)
    ensures a.NotifyCheck? ==>
              var pc, s' := s.threads[a.t], Next(s, a);
              (a.t in s'.threads && s'.threads[a.t].NotClosed?) <==>
                pc.id in s.senders && forall r :: r in s.receivers ==> s.receivers[r].chan != s.senders[pc.id]
    ensures a.NotifyRemove? ==> Next(s, a).senders == s.senders - {s.threads[a.t].id}
    ensures !a.NotifyRemove? && !a.SubscribeEntry? ==> Next(s, a).senders == s.senders
    ensures a.DropReceiver? ==> Next(s, a).receivers == s.receivers - {a.r}
    ensures a.CloneReceiver? ==> a.copy in Next(s, a).receivers && Next(s, a).receivers[a.copy] == s.receivers[a.r]
  {
  }
}
