/**
 The subscription state machine of mqtt_api.c: five topic slots driven by messages from the
 broker and by calls of the application.
 */
module MqttSession {
  import opened MqttCodec

  type Topic = seq<Byte>

  const SLOTS := 5
  const TOPIC_MAX := 64

  /** The flag: 0 free, 1 wanted, 2 being subscribed, 3 subscribed, 4 being unsubscribed. */
  datatype Slot = Slot(flag: int, topic: Topic, id: nat)

  datatype Event =
    | Connected
    | SubSucceeded(topic: Topic)
    | UnsubSucceeded(topic: Topic)
    | Received(topic: Topic, payload: seq<Byte>)
    | PingResponse

  /** What is handed to the connection. */
  datatype Sent = SubscribeSent(packet: seq<Byte>) | UnsubscribeSent(topic: Topic, id: nat) | PubackSent(id: nat)

  datatype Session = Session(slots: seq<Slot>, status: int, nextId: nat, events: seq<Event>, sent: seq<Sent>)

  // ------------------------------------------------------------- looking up slots

  /** The first slot with a flag, or the number of slots. */
  function First(slots: seq<Slot>, flag: int): (i: nat)
    ensures i <= |slots| && (i < |slots| ==> slots[i].flag == flag)
    ensures forall j :: 0 <= j < i ==> slots[j].flag != flag
  {
    if slots == [] || slots[0].flag == flag then 0
    else
      var i := First(slots[1..], flag);
      assert forall j :: 1 <= j < i + 1 ==> slots[j] == slots[1..][j - 1];
      i + 1
  }

  function FirstWithId(slots: seq<Slot>, flag: int, id: nat): (i: nat)
    ensures i <= |slots| && (i < |slots| ==> slots[i].flag == flag && slots[i].id == id)
    ensures forall j :: 0 <= j < i ==> !(slots[j].flag == flag && slots[j].id == id)
  {
    if slots == [] || (slots[0].flag == flag && slots[0].id == id) then 0
    else
      var i := FirstWithId(slots[1..], flag, id);
      assert forall j :: 1 <= j < i + 1 ==> slots[j] == slots[1..][j - 1];
      i + 1
  }

  /** The first occupied slot with a topic. */
  function Holding(slots: seq<Slot>, topic: Topic): (i: nat)
    ensures i <= |slots| && (i < |slots| ==> slots[i].flag != 0 && slots[i].topic == topic)
    ensures forall j :: 0 <= j < i ==> !(slots[j].flag != 0 && slots[j].topic == topic)
  {
    if slots == [] || (slots[0].flag != 0 && slots[0].topic == topic) then 0
    else
      var i := Holding(slots[1..], topic);
      assert forall j :: 1 <= j < i + 1 ==> slots[j] == slots[1..][j - 1];
      i + 1
  }

  // ------------------------------------------------------------- steps

  function WithFlag(slots: seq<Slot>, i: nat, flag: int): seq<Slot>
    requires i < |slots|
  {
    slots[i := slots[i].(flag := flag)]
  }

  /** Topics fit their buffers and ids are 16 bits wide. */
  predicate Fits(s: Session) {
    && |s.slots| == SLOTS && s.nextId < WORD
    && (forall i :: 0 <= i < |s.slots| ==> 0 <= s.slots[i].flag <= 4 && |s.slots[i].topic| <= TOPIC_MAX && s.slots[i].id < WORD)
  }

  /** Subscribes the next wanted topic; without one the client is connected. */
  function Advance(s: Session): Session
    requires Fits(s)
  {
    var i := First(s.slots, 1);
    if i < |s.slots| then
      s.(slots := s.slots[i := Slot(2, s.slots[i].topic, s.nextId)],
         sent := s.sent + [SubscribeSent(SubscribePacket(s.slots[i].topic, s.nextId))],
         nextId := (s.nextId + 1) % WORD)
    else
      s.(status := 1, events := s.events + [Connected])
  }

  /** mqtt_init_para: every occupied slot is wanted again. */
  function Reset(slots: seq<Slot>): (r: seq<Slot>)
    ensures |r| == |slots|
    ensures forall i :: 0 <= i < |slots| ==> r[i] == Slot(if slots[i].flag != 0 then 1 else 0, slots[i].topic, 0)
  {
    if slots == [] then []
    else [Slot(if slots[0].flag != 0 then 1 else 0, slots[0].topic, 0)] + Reset(slots[1..])
  }

  function Closed(s: Session): Session {
    s.(slots := Reset(s.slots), status := 0)
  }

  datatype Message =
    | Connack(code: int)
    | Suback(id: nat)
    | Unsuback(id: nat)
    | Publish(topic: Topic, payload: seq<Byte>, qos: nat, id: nat)
    | Disconnect
    | Pingresp
    | Ignored

  function Handle(s: Session, m: Message): Session
    requires Fits(s)
  {
    match m
    case Disconnect => Closed(s)
    case Connack(code) => if code == 0 then Advance(s) else Closed(s)
    case Suback(id) =>
      var i := FirstWithId(s.slots, 2, id);
      if i < |s.slots| then
        Advance(s.(slots := WithFlag(s.slots, i, 3), events := s.events + [SubSucceeded(s.slots[i].topic)]))
      else s
    case Unsuback(id) =>
      var i := FirstWithId(s.slots, 4, id);
      if i < |s.slots| then
        s.(slots := s.slots[i := Slot(0, s.slots[i].topic, 0)], events := s.events + [UnsubSucceeded(s.slots[i].topic)])
      else s
    case Publish(topic, payload, qos, id) =>
      s.(events := s.events + [Received(topic, payload)],
         sent := if qos == 1 || qos == 2 then s.sent + [PubackSent(id)] else s.sent)
    case Pingresp => s.(events := s.events + [PingResponse])
    case Ignored => s
  }

  datatype Input = Broker(m: Message) | Sub(topic: Topic) | Unsub(topic: Topic) | Close

  const TOPIC_OVERSIZE := -7
  const TOPIC_FULL := -8
  const TOPIC_NOFIND := -9
  const TOPIC_REPET := -10

  /** hfmqtt_sub: the new state and the error number, 0 for success. */
  function Subscribed(s: Session, topic: Topic): (Session, int)
    requires Fits(s)
  {
    if |topic| > TOPIC_MAX then (s, TOPIC_OVERSIZE)
    else if Holding(s.slots, topic) < |s.slots| then (s, TOPIC_REPET)
    else
      var i := First(s.slots, 0);
      if i < |s.slots| then (s.(slots := s.slots[i := Slot(1, topic, 0)]), 0) else (s, TOPIC_FULL)
  }

  /** hfmqtt_unsub */
  function Unsubscribed(s: Session, topic: Topic): (Session, int)
    requires Fits(s)
  {
    if |topic| > TOPIC_MAX then (s, TOPIC_OVERSIZE)
    else
      var i := Holding(s.slots, topic);
      if i == |s.slots| then (s, TOPIC_NOFIND)
      else if s.slots[i].flag == 3 && s.status == 1 then
        (s.(slots := s.slots[i := Slot(4, topic, s.nextId)], sent := s.sent + [UnsubscribeSent(topic, s.nextId)],
            nextId := (s.nextId + 1) % WORD), 0)
      else
        (s.(slots := s.slots[i := Slot(0, topic, 0)], events := s.events + [UnsubSucceeded(topic)]), 0)
  }

  function Step(s: Session, input: Input): Session
    requires Fits(s)
  {
    match input
    case Broker(m) => Handle(s, m)
    case Sub(topic) => Subscribed(s, topic).0
    case Unsub(topic) => Unsubscribed(s, topic).0
    case Close => Closed(s)
  }

  // ------------------------------------------------------------- over all runs

  /** No two occupied slots hold the same topic. */
  predicate Distinct(slots: seq<Slot>) {
    forall i, j :: 0 <= i < j < |slots| && slots[i].flag != 0 && slots[j].flag != 0 ==> slots[i].topic != slots[j].topic
  }

  predicate Inv(s: Session) {
    Fits(s) && Distinct(s.slots)
  }

  lemma StartInv()
    ensures Inv(Session(seq(SLOTS, _ => Slot(0, [], 0)), 0, 1, [], []))
  {
  }

  lemma AdvanceKeeps(s: Session)
    requires Inv(s)
    ensures Inv(Advance(s))
  {
  }

  lemma HandleKeeps(s: Session, m: Message)
    requires Inv(s)
    ensures Inv(Handle(s, m))
  {
    hide Advance, SubscribePacket;
    match m
    case Connack(code) => AdvanceKeeps(s);
    case Suback(id) =>
      var i := FirstWithId(s.slots, 2, id);
      if i < |s.slots| {
        AdvanceKeeps(s.(slots := WithFlag(s.slots, i, 3), events := s.events + [SubSucceeded(s.slots[i].topic)]));
      }
    case _ =>
  }

  lemma StepKeeps(s: Session, input: Input)
    requires Inv(s)
    ensures Inv(Step(s, input))
  {
    hide Handle;
    match input
    case Broker(m) => HandleKeeps(s, m);
    case _ =>
  }

  lemma CloseKeeps(s: Session)
    requires Inv(s)
    ensures Inv(Closed(s))
  {
  }

  function Run(s: Session, inputs: seq<Input>): (r: Session)
    requires Inv(s)
    ensures Inv(r)
    decreases inputs
  {
    if inputs == [] then s
    else
      StepKeeps(s, inputs[0]);
      Run(Step(s, inputs[0]), inputs[1..])
  }

  // ------------------------------------------------------------- logging in

  function Count(slots: seq<Slot>, flag: int): nat {
    if slots == [] then 0 else Count(slots[..|slots| - 1], flag) + (if slots[|slots| - 1].flag == flag then 1 else 0)
  }

  /** After init or close: every slot is free or wanted. */
  predicate Fresh(s: Session) {
    forall i :: 0 <= i < |s.slots| ==> s.slots[i].flag == 0 || s.slots[i].flag == 1
  }

  lemma CloseIsFresh(s: Session)
    requires Inv(s)
    ensures Inv(Closed(s)) && Fresh(Closed(s)) && Closed(s).status == 0 && Closed(s).events == s.events
    ensures Count(Closed(s).slots, 1) + Count(s.slots, 0) == |s.slots|
  {
    hide Count, Distinct;
    CloseKeeps(s);
    CountOccupied(s.slots, |s.slots|);
    assert s.slots[..|s.slots|] == s.slots && Reset(s.slots)[..|s.slots|] == Reset(s.slots);
  }

  lemma {:induction false} CountOccupied(slots: seq<Slot>, n: nat)
    requires n <= |slots|
    ensures Count(Reset(slots)[..n], 1) + Count(slots[..n], 0) == n
  {
    if n > 0 {
      CountOccupied(slots, n - 1);
      assert slots[..n][..n - 1] == slots[..n - 1];
      assert Reset(slots)[..n][..n - 1] == Reset(slots)[..n - 1];
    }
  }

  /** How far a login is: of the slots that were wanted, the first j are subscribed, the next is
      being subscribed, and the others still wait. */
  predicate Progress(s0: Session, s: Session, j: nat) {
    && |s.slots| == |s0.slots|
    && forall i :: 0 <= i < |s.slots| ==>
         s.slots[i].topic == s0.slots[i].topic
         && s.slots[i].flag == Stage(s0, i, j)
  }

  function Stage(s0: Session, i: nat, j: nat): int
    requires i < |s0.slots|
  {
    var rank := Count(s0.slots[..i], 1);
    if s0.slots[i].flag != 1 then 0 else if rank < j then 3 else if rank == j then 2 else 1
  }

  /** The topics of the wanted slots, in the order of the slots. */
  function Wanted(slots: seq<Slot>): (r: seq<Topic>)
    ensures |r| == Count(slots, 1)
  {
    if slots == [] then []
    else Wanted(slots[..|slots| - 1]) + (if slots[|slots| - 1].flag == 1 then [slots[|slots| - 1].topic] else [])
  }

  function Successes(topics: seq<Topic>): seq<Event> {
    seq(|topics|, i requires 0 <= i < |topics| => SubSucceeded(topics[i]))
  }

  /** One acknowledgement for the slot being subscribed, echoing the id it was issued. */
  function Acknowledged(s: Session): Session
    requires Fits(s)
  {
    var i := First(s.slots, 2);
    if i < |s.slots| then Handle(s, Suback(s.slots[i].id)) else s
  }

  function AcknowledgedTimes(s: Session, n: nat): (r: Session)
    requires Inv(s)
    ensures Inv(r)
  {
    if n == 0 then s
    else
      var t := AcknowledgedTimes(s, n - 1);
      HandleKeeps(t, Suback(if First(t.slots, 2) < |t.slots| then t.slots[First(t.slots, 2)].id else 0));
      Acknowledged(t)
  }

  lemma CountStep(slots: seq<Slot>, flag: int, i: nat)
    requires i < |slots|
    ensures Count(slots[..i + 1], flag) == Count(slots[..i], flag) + (if slots[i].flag == flag then 1 else 0)
    ensures Wanted(slots[..i + 1]) == Wanted(slots[..i]) + (if slots[i].flag == 1 then [slots[i].topic] else [])
  {
    assert slots[..i + 1][..i] == slots[..i];
  }

  lemma {:induction false} CountGrows(slots: seq<Slot>, flag: int, i: nat, j: nat)
    requires i <= j <= |slots|
    ensures Count(slots[..i], flag) <= Count(slots[..j], flag)
    ensures Wanted(slots[..i]) <= Wanted(slots[..j])
    decreases j
  {
    if i < j {
      CountStep(slots, flag, j - 1);
      CountGrows(slots, flag, i, j - 1);
    }
  }

  /** A later wanted slot has a higher rank. */
  lemma RankGrows(slots: seq<Slot>, i: nat, j: nat)
    requires i < j <= |slots| && slots[i].flag == 1
    ensures Count(slots[..i], 1) < Count(slots[..j], 1)
  {
    CountStep(slots, 1, i);
    CountGrows(slots, 1, i + 1, j);
  }

  /** Every rank below the count is some slot's. */
  lemma {:induction false} SlotOfRank(slots: seq<Slot>, n: nat, r: nat) returns (i: nat)
    requires n <= |slots| && r < Count(slots[..n], 1)
    ensures i < n && slots[i].flag == 1 && Count(slots[..i], 1) == r
    decreases n
  {
    assert n > 0 by { assert slots[..0] == []; }
    CountStep(slots, 1, n - 1);
    if r < Count(slots[..n - 1], 1) {
      i := SlotOfRank(slots, n - 1, r);
    } else {
      i := n - 1;
    }
  }

  lemma WantedAt(slots: seq<Slot>, i: nat)
    requires i < |slots| && slots[i].flag == 1
    ensures Count(slots[..i], 1) < Count(slots, 1) && Wanted(slots)[Count(slots[..i], 1)] == slots[i].topic
  {
    CountStep(slots, 1, i);
    CountGrows(slots, 1, i + 1, |slots|);
    assert slots[..|slots|] == slots;
    assert Wanted(slots[..i + 1]) <= Wanted(slots);
    assert Wanted(slots)[Count(slots[..i], 1)] == Wanted(slots[..i + 1])[Count(slots[..i], 1)];
  }

  /** Between the first j wanted slots subscribed and the next one chosen. */
  predicate Between(s0: Session, s: Session, j: nat) {
    && |s.slots| == |s0.slots|
    && forall i :: 0 <= i < |s.slots| ==>
         s.slots[i].topic == s0.slots[i].topic
         && s.slots[i].flag == (if s0.slots[i].flag != 1 then 0 else if Count(s0.slots[..i], 1) < j then 3 else 1)
  }

  /** Choosing the next wanted slot, or announcing the connection when none is left. */
  lemma AdvanceProgress(s0: Session, s: Session, j: nat)
    requires Fresh(s0) && Fits(s) && Between(s0, s, j) && j <= Count(s0.slots, 1)
    ensures Progress(s0, Advance(s), j)
    ensures j == Count(s0.slots, 1) ==>
              Advance(s).status == 1 && Advance(s).events == s.events + [Connected]
    ensures j < Count(s0.slots, 1) ==> Advance(s).status == s.status && Advance(s).events == s.events
  {
    hide SubscribePacket;
    var n, slots, t := First(s.slots, 1), s0.slots, Advance(s);
    assert slots[..|slots|] == slots;
    if j < Count(slots, 1) {
      var k := SlotOfRank(slots, |slots|, j);
      assert s.slots[k].flag == 1;
      NextIsRank(s0, s, j, n);
    } else if n < |s.slots| {
      WantedAt(slots, n);
    }
    forall i | 0 <= i < |slots|
      ensures t.slots[i].topic == slots[i].topic && t.slots[i].flag == Stage(s0, i, j)
    {
      if slots[i].flag == 1 {
        WantedAt(slots, i);
        if n < |slots| && i != n {
          if i < n { RankGrows(slots, i, n); } else { RankGrows(slots, n, i); }
        }
      }
    }
  }

  lemma NextIsRank(s0: Session, s: Session, j: nat, n: nat)
    requires Between(s0, s, j) && n < |s.slots| && s.slots[n].flag == 1
    requires forall i :: 0 <= i < n ==> s.slots[i].flag != 1
    ensures s0.slots[n].flag == 1 && Count(s0.slots[..n], 1) == j
  {
    if Count(s0.slots[..n], 1) > j {
      var k := SlotOfRank(s0.slots, n, j);
      assert false;
    }
  }

  lemma LoginStarts(s0: Session)
    requires Inv(s0) && Fresh(s0)
    ensures Progress(s0, Handle(s0, Connack(0)), 0)
    ensures Handle(s0, Connack(0)).events == s0.events + if Count(s0.slots, 1) == 0 then [Connected] else []
    ensures Handle(s0, Connack(0)).status == if Count(s0.slots, 1) == 0 then 1 else s0.status
  {
    hide Advance;
    AdvanceProgress(s0, s0, 0);
  }

  /** The only slot being subscribed is the one of rank j. */
  lemma PendingIsRank(s0: Session, s: Session, j: nat)
    requires Progress(s0, s, j) && j < Count(s0.slots, 1)
    ensures var i := First(s.slots, 2);
            i < |s.slots| == |s0.slots| && s0.slots[i].flag == 1 && Count(s0.slots[..i], 1) == j
            && s.slots[i].topic == s0.slots[i].topic
  {
    assert s0.slots[..|s0.slots|] == s0.slots;
    var k := SlotOfRank(s0.slots, |s0.slots|, j);
    assert s.slots[k].flag == 2;
    assert s.slots[First(s.slots, 2)].flag == Stage(s0, First(s.slots, 2), j);
  }

  lemma LoginContinues(s0: Session, s: Session, j: nat)
    requires Inv(s) && Fresh(s0) && Progress(s0, s, j) && j < Count(s0.slots, 1)
    requires s.events == s0.events + Successes(Wanted(s0.slots)[..j])
    ensures Progress(s0, Acknowledged(s), j + 1)
    ensures Acknowledged(s).events == s0.events + Successes(Wanted(s0.slots)[..j + 1])
                                      + (if j + 1 == Count(s0.slots, 1) then [Connected] else [])
    ensures Acknowledged(s).status == if j + 1 == Count(s0.slots, 1) then 1 else s.status
  {
    hide Advance, Progress, Between, Fresh, Distinct, Count, Wanted;
    PendingIsRank(s0, s, j);
    var i := First(s.slots, 2);
    var k := FirstWithId(s.slots, 2, s.slots[i].id);
    OnlyPending(s0, s, j, i, k);
    var t := s.(slots := WithFlag(s.slots, i, 3), events := s.events + [SubSucceeded(s.slots[i].topic)]);
    OneMore(s0, s, t, j, i);
    AdvanceProgress(s0, t, j + 1);
    WantedAt(s0.slots, i);
    var w := Wanted(s0.slots);
    assert w[..j + 1] == w[..j] + [w[j]];
    assert Successes(w[..j + 1]) == Successes(w[..j]) + [SubSucceeded(w[j])];
  }

  lemma OnlyPending(s0: Session, s: Session, j: nat, i: nat, k: nat)
    requires Progress(s0, s, j) && i < |s.slots| && k < |s.slots| && s.slots[i].flag == 2 && s.slots[k].flag == 2
    ensures i == k
  {
    assert Stage(s0, i, j) == 2 && Stage(s0, k, j) == 2;
    if i < k { RankGrows(s0.slots, i, k); } else if k < i { RankGrows(s0.slots, k, i); }
  }

  lemma OneMore(s0: Session, s: Session, t: Session, j: nat, i: nat)
    requires Progress(s0, s, j) && i < |s.slots| && s.slots[i].flag == 2 && t.slots == WithFlag(s.slots, i, 3)
    ensures Between(s0, t, j + 1)
  {
    forall k | 0 <= k < |t.slots|
      ensures t.slots[k].topic == s0.slots[k].topic
      ensures t.slots[k].flag == (if s0.slots[k].flag != 1 then 0 else if Count(s0.slots[..k], 1) < j + 1 then 3 else 1)
    {
      assert s.slots[k].flag == Stage(s0, k, j) && s.slots[i].flag == Stage(s0, i, j);
      if k != i && s.slots[k].flag == 2 { OnlyPending(s0, s, j, i, k); }
    }
  }

  /** After j of the acknowledgements. */
  lemma {:induction false} LoginAfter(s0: Session, j: nat)
    requires Inv(s0) && Fresh(s0) && j <= Count(s0.slots, 1)
    ensures Inv(Handle(s0, Connack(0)))
    ensures var s := AcknowledgedTimes(Handle(s0, Connack(0)), j);
            && Progress(s0, s, j)
            && s.events == s0.events + Successes(Wanted(s0.slots)[..j]) + (if j == Count(s0.slots, 1) then [Connected] else [])
            && s.status == if j == Count(s0.slots, 1) then 1 else s0.status
  {
    hide Handle, Acknowledged, Progress, Fresh, Distinct;
    HandleKeeps(s0, Connack(0));
    if j == 0 {
      LoginStarts(s0);
      assert Successes(Wanted(s0.slots)[..0]) == [];
      assert s0.events + [] == s0.events;
    } else {
      LoginAfter(s0, j - 1);
      var s := AcknowledgedTimes(Handle(s0, Connack(0)), j - 1);
      assert s.events == s0.events + Successes(Wanted(s0.slots)[..j - 1]);
      LoginContinues(s0, s, j - 1);
    }
  }

  predicate AtMostOne(slots: seq<Slot>, flag: int) {
    forall i, j :: 0 <= i < j < |slots| ==> !(slots[i].flag == flag && slots[j].flag == flag)
  }

  /** From a fresh login: the broker accepts, then acknowledges each subscription in turn. All
      wanted topics end subscribed, they are reported in slot order, the connection is announced
      once and last and the session is open only then, and never more than one slot is being
      subscribed. */
  lemma LoginCompletes(s0: Session, j: nat)
    requires Inv(s0) && Fresh(s0) && j <= Count(s0.slots, 1)
    ensures Inv(Handle(s0, Connack(0)))
    ensures var s := AcknowledgedTimes(Handle(s0, Connack(0)), j);
            && AtMostOne(s.slots, 2) && s.status == (if j == Count(s0.slots, 1) then 1 else s0.status)
            && (j == Count(s0.slots, 1) ==>
                  && (forall i :: 0 <= i < |s.slots| ==>
                        && s.slots[i].topic == s0.slots[i].topic
                        && s.slots[i].flag == if s0.slots[i].flag == 1 then 3 else 0)
                  && s.events == s0.events + Successes(Wanted(s0.slots)) + [Connected])
            && (j < Count(s0.slots, 1) ==> s.events == s0.events + Successes(Wanted(s0.slots)[..j]))
  {
    LoginAfter(s0, j);
    var s := AcknowledgedTimes(Handle(s0, Connack(0)), j);
    hide Handle, AcknowledgedTimes;
    forall i, k | 0 <= i < k < |s.slots|
      ensures !(s.slots[i].flag == 2 && s.slots[k].flag == 2)
    {
      if s.slots[i].flag == 2 && s.slots[k].flag == 2 { OnlyPending(s0, s, j, i, k); }
    }
    if j == Count(s0.slots, 1) {
      assert Wanted(s0.slots)[..j] == Wanted(s0.slots);
      forall i | 0 <= i < |s.slots|
        ensures s.slots[i].flag == if s0.slots[i].flag == 1 then 3 else 0
      {
        assert s.slots[i].flag == Stage(s0, i, j);
        if s0.slots[i].flag == 1 { WantedAt(s0.slots, i); }
      }
    }
  }

  // ------------------------------------------------------------- what a login sends

  /** Subscriptions to these topics, with ids that count up from this one. */
  function Asked(topics: seq<Topic>, id: nat): (r: seq<Sent>)
    requires forall i :: 0 <= i < |topics| ==> |topics[i]| <= TOPIC_MAX
    ensures |r| == |topics|
  {
    seq(|topics|, i requires 0 <= i < |topics| => SubscribeSent(SubscribePacket(topics[i], (id + i) % WORD)))
  }

  lemma {:induction false} WantedFit(slots: seq<Slot>)
    requires forall i :: 0 <= i < |slots| ==> |slots[i].topic| <= TOPIC_MAX
    ensures forall i :: 0 <= i < |Wanted(slots)| ==> |Wanted(slots)[i]| <= TOPIC_MAX
  {
    if slots != [] { WantedFit(slots[..|slots| - 1]); }
  }

  /** Choosing the next slot sends its subscription; announcing the connection sends nothing. */
  lemma AdvanceSends(s0: Session, s: Session, j: nat)
    requires Fresh(s0) && Fits(s0) && Fits(s) && Between(s0, s, j) && j <= Count(s0.slots, 1)
    ensures var t, w := Advance(s), Wanted(s0.slots);
            if j < |w| then
              && |w[j]| <= TOPIC_MAX && t.sent == s.sent + [SubscribeSent(SubscribePacket(w[j], s.nextId))]
              && t.nextId == (s.nextId + 1) % WORD && forall i :: 0 <= i < |t.slots| && t.slots[i].flag == 2 ==> t.slots[i].id == s.nextId
            else t.sent == s.sent && t.nextId == s.nextId
  {
    hide SubscribePacket, Wanted, Count;
    var n, w := First(s.slots, 1), Wanted(s0.slots);
    WantedFit(s0.slots);
    if n < |s.slots| {
      NextIsRank(s0, s, j, n);
      WantedAt(s0.slots, n);
    } else if j < |w| {
      SomeWaits(s0, s, j);
    }
  }

  lemma SomeWaits(s0: Session, s: Session, j: nat)
    requires Between(s0, s, j) && j < Count(s0.slots, 1)
    ensures First(s.slots, 1) < |s.slots|
  {
    assert s0.slots[..|s0.slots|] == s0.slots;
    var k := SlotOfRank(s0.slots, |s0.slots|, j);
    assert s.slots[k].flag == 1;
  }

  /** What is asked for when j of the wanted topics are subscribed. */
  function Sending(w: seq<Topic>, j: nat): (m: nat)
    ensures m <= |w|
  {
    if j < |w| then j + 1 else |w|
  }

  /** The wanted topics so far have been asked for, and the slot being subscribed keeps the last id. */
  predicate AskedSoFar(s0: Session, s: Session, j: nat) {
    var w := Wanted(s0.slots);
    && (forall i :: 0 <= i < |w| ==> |w[i]| <= TOPIC_MAX)
    && s.sent == s0.sent + Asked(w[..Sending(w, j)], s0.nextId) && s.nextId == (s0.nextId + Sending(w, j)) % WORD
    && forall i :: 0 <= i < |s.slots| && s.slots[i].flag == 2 ==> s.slots[i].id == (s0.nextId + j) % WORD
  }

  lemma FirstAsked(s0: Session)
    requires Inv(s0) && Fresh(s0)
    ensures AskedSoFar(s0, Handle(s0, Connack(0)), 0)
  {
    hide SubscribePacket, Advance, Progress, Between, Distinct, Count, Wanted, Asked;
    var w := Wanted(s0.slots);
    WantedFit(s0.slots);
    FreshIsBetween(s0);
    AdvanceSends(s0, s0, 0);
    NoneAsked(s0.nextId);
    if w != [] {
      AskedSnoc(w, 0, s0.nextId);
      assert w[..0] == [];
    } else {
      LoginStarts(s0);
      NonePending(s0, Advance(s0), 0);
      assert s0.sent + [] == s0.sent;
    }
  }

  /** The session when the slot being subscribed has been acknowledged, and before the next. */
  function Confirmed(s: Session, i: nat): Session
    requires i < |s.slots|
  {
    s.(slots := WithFlag(s.slots, i, 3), events := s.events + [SubSucceeded(s.slots[i].topic)])
  }

  lemma AcknowledgedIs(s0: Session, s: Session, j: nat)
    requires Inv(s) && Progress(s0, s, j) && j < Count(s0.slots, 1)
    ensures var i := First(s.slots, 2);
            && i < |s.slots| && Fits(Confirmed(s, i)) && Acknowledged(s) == Advance(Confirmed(s, i))
            && Between(s0, Confirmed(s, i), j + 1)
  {
    hide Advance, Progress, Between, Distinct, Count;
    PendingIsRank(s0, s, j);
    var i := First(s.slots, 2);
    OnlyPending(s0, s, j, i, FirstWithId(s.slots, 2, s.slots[i].id));
    OneMore(s0, s, Confirmed(s, i), j, i);
  }

  lemma NextAsked(s0: Session, s: Session, j: nat)
    requires Inv(s0) && Fresh(s0) && Inv(s) && Progress(s0, s, j) && j < Count(s0.slots, 1) && AskedSoFar(s0, s, j)
    ensures AskedSoFar(s0, Acknowledged(s), j + 1)
  {
    hide SubscribePacket, Advance, Progress, Between, Distinct, Count, Wanted, Asked, Fresh, First, Acknowledged;
    var w, id := Wanted(s0.slots), s0.nextId;
    AcknowledgedIs(s0, s, j);
    var u := Confirmed(s, First(s.slots, 2));
    AdvanceSends(s0, u, j + 1);
    if j + 1 < |w| {
      AskedSnoc(w, j + 1, id);
      assert Advance(u).sent == s0.sent + Asked(w[..j + 2], id);
    } else {
      AdvanceProgress(s0, u, j + 1);
      NonePending(s0, Advance(u), j + 1);
    }
  }

  /** A login asks for the wanted topics one at a time, in the order of the slots: the first when it
      is accepted and each of the others when the one before is acknowledged, with ids that count
      up, the last of which the slot being subscribed keeps. */
  lemma {:induction false} LoginSends(s0: Session, j: nat)
    requires Inv(s0) && Fresh(s0) && j <= Count(s0.slots, 1)
    ensures Inv(Handle(s0, Connack(0))) && AskedSoFar(s0, AcknowledgedTimes(Handle(s0, Connack(0)), j), j)
  {
    hide Handle, Acknowledged, Progress, Fresh, Distinct, AskedSoFar;
    HandleKeeps(s0, Connack(0));
    if j == 0 {
      FirstAsked(s0);
    } else {
      LoginSends(s0, j - 1);
      LoginAfter(s0, j - 1);
      NextAsked(s0, AcknowledgedTimes(Handle(s0, Connack(0)), j - 1), j - 1);
    }
  }

  lemma AskedSnoc(w: seq<Topic>, j: nat, id: nat)
    requires j < |w| && forall i :: 0 <= i < |w| ==> |w[i]| <= TOPIC_MAX
    ensures Asked(w[..j + 1], id) == Asked(w[..j], id) + [SubscribeSent(SubscribePacket(w[j], (id + j) % WORD))]
  {
    hide SubscribePacket;
  }

  lemma NoneAsked(id: nat)
    ensures Asked([], id) == []
  {
  }

  lemma FreshIsBetween(s0: Session)
    requires Fresh(s0)
    ensures Between(s0, s0, 0)
  {
  }

  lemma NonePending(s0: Session, t: Session, j: nat)
    requires Progress(s0, t, j) && j >= Count(s0.slots, 1)
    ensures forall i :: 0 <= i < |t.slots| ==> t.slots[i].flag != 2
  {
    forall i | 0 <= i < |t.slots|
      ensures t.slots[i].flag != 2
    {
      assert t.slots[i].flag == Stage(s0, i, j);
      if s0.slots[i].flag == 1 { WantedAt(s0.slots, i); }
    }
  }

  /** Whatever happened before the session closed, the next accepted and acknowledged login
      subscribes every topic held at that moment, those being unsubscribed among them. */
  lemma ReconnectRestores(s: Session, inputs: seq<Input>)
    requires Inv(s)
    ensures var u := Run(s, inputs);
            var n := |u.slots| - Count(u.slots, 0);
            && Inv(Closed(u)) && Inv(Handle(Closed(u), Connack(0))) && n == Count(Closed(u).slots, 1)
            && var t := AcknowledgedTimes(Handle(Closed(u), Connack(0)), n);
               && |t.slots| == |u.slots| && t.status == 1
               && (forall i :: 0 <= i < |u.slots| ==>
                     && t.slots[i].topic == u.slots[i].topic
                     && t.slots[i].flag == if u.slots[i].flag != 0 then 3 else 0)
               && t.events == u.events + Successes(Wanted(Closed(u).slots)) + [Connected]
  {
    hide Run, Handle, AcknowledgedTimes, Count, Wanted, Distinct;
    var u := Run(s, inputs);
    CloseIsFresh(u);
    LoginCompletes(Closed(u), Count(Closed(u).slots, 1));
  }

  // ------------------------------------------------------------- unsubscribing

  predicate Held(s: Session, topic: Topic) {
    exists i :: 0 <= i < |s.slots| && s.slots[i].flag != 0 && s.slots[i].topic == topic
  }

  /** In an open session a subscription is given up with one packet and its acknowledgement: the
      topic stays until then, is gone after it, is reported once, and can be subscribed again.
      The id must not be the one that another slot waits for. */
  lemma UnsubscribeCompletes(s: Session, i: nat)
    requires Inv(s) && s.status == 1 && i < |s.slots| && s.slots[i].flag == 3
    requires forall j :: 0 <= j < |s.slots| && s.slots[j].flag == 4 ==> s.slots[j].id != s.nextId
    ensures var topic, id := s.slots[i].topic, s.nextId;
            var u := Step(s, Unsub(topic));
            var v := Step(u, Broker(Unsuback(id)));
            && Inv(u) && Inv(v) && Unsubscribed(s, topic).1 == 0
            && u == Session(s.slots[i := Slot(4, topic, id)], 1, (id + 1) % WORD, s.events, s.sent + [UnsubscribeSent(topic, id)])
            && v.events == s.events + [UnsubSucceeded(topic)] && v.sent == u.sent && v.status == 1
            && !Held(v, topic) && (forall j :: 0 <= j < |s.slots| && j != i ==> v.slots[j] == s.slots[j])
            && Subscribed(v, topic).1 == 0 && Held(Step(v, Sub(topic)), topic)
  {
    hide First, FirstWithId, Holding;
    var topic, id := s.slots[i].topic, s.nextId;
    StepKeeps(s, Unsub(topic));
    HoldsOnly(s, i);
    var u := Step(s, Unsub(topic));
    assert u.slots == s.slots[i := Slot(4, topic, id)];
    HandleKeeps(u, Unsuback(id));
    assert FirstWithId(u.slots, 4, id) == i by { assert u.slots[i].flag == 4 && u.slots[i].id == id; }
    Freed(u, Handle(u, Unsuback(id)), i);
  }

  /** Any other topic held is dropped at once, without a packet. */
  lemma UnsubscribeDrops(s: Session, i: nat)
    requires Inv(s) && i < |s.slots| && s.slots[i].flag != 0 && !(s.slots[i].flag == 3 && s.status == 1)
    ensures var topic := s.slots[i].topic;
            var v := Step(s, Unsub(topic));
            && Inv(v) && Unsubscribed(s, topic).1 == 0
            && v.events == s.events + [UnsubSucceeded(topic)] && v.sent == s.sent && v.nextId == s.nextId && v.status == s.status
            && !Held(v, topic) && (forall j :: 0 <= j < |s.slots| && j != i ==> v.slots[j] == s.slots[j])
            && Subscribed(v, topic).1 == 0 && Held(Step(v, Sub(topic)), topic)
  {
    hide First, Holding;
    HoldsOnly(s, i);
    StepKeeps(s, Unsub(s.slots[i].topic));
    Freed(s, Step(s, Unsub(s.slots[i].topic)), i);
  }

  lemma HoldsOnly(s: Session, i: nat)
    requires Inv(s) && i < |s.slots| && s.slots[i].flag != 0
    ensures Holding(s.slots, s.slots[i].topic) == i
  {
    OnlySlot(s.slots, i, Holding(s.slots, s.slots[i].topic));
  }

  lemma OnlySlot(slots: seq<Slot>, i: nat, k: nat)
    requires Distinct(slots) && i < |slots| && k < |slots| && slots[i].flag != 0 && slots[k].flag != 0
    requires slots[i].topic == slots[k].topic
    ensures i == k
  {
  }

  /** A slot that was freed, and nothing else, leaves its topic free to be subscribed. */
  lemma Freed(s: Session, v: Session, i: nat)
    requires Inv(s) && Inv(v) && i < |s.slots| && s.slots[i].flag != 0 && |s.slots[i].topic| <= TOPIC_MAX
    requires v.slots == s.slots[i := Slot(0, s.slots[i].topic, 0)]
    ensures var topic := s.slots[i].topic;
            !Held(v, topic) && Subscribed(v, topic).1 == 0 && Held(Step(v, Sub(topic)), topic)
  {
    var topic := s.slots[i].topic;
    forall j | 0 <= j < |v.slots| && v.slots[j].flag != 0
      ensures v.slots[j].topic != topic
    {
      if i < j { assert s.slots[i].topic != s.slots[j].topic; } else { assert s.slots[j].topic != s.slots[i].topic; }
    }
    var k := First(v.slots, 0);
    assert v.slots[i].flag == 0;
    var w := Step(v, Sub(topic));
    assert w.slots[k].flag == 1 && w.slots[k].topic == topic;
  }

  // ------------------------------------------------------------- calls and answers that change nothing

  /** hfmqtt_sub fails exactly for a topic of more than 64 bytes, for one that is held, and when all
      slots are taken, with these numbers and without effect; else one free slot wants the topic. */
  lemma SubscribedExactly(s: Session, topic: Topic)
    requires Fits(s)
    ensures var (t, code) := Subscribed(s, topic);
            && code == (if |topic| > 64 then -7 else if Held(s, topic) then -10
                        else if forall i :: 0 <= i < |s.slots| ==> s.slots[i].flag != 0 then -8 else 0)
            && if code != 0 then t == s
               else exists i :: 0 <= i < |s.slots| && s.slots[i].flag == 0 && t == s.(slots := s.slots[i := Slot(1, topic, 0)])
  {
    HeldIsHolding(s, topic);
    hide Holding, Held;
  }

  lemma HeldIsHolding(s: Session, topic: Topic)
    ensures Held(s, topic) <==> Holding(s.slots, topic) < |s.slots|
  {
  }

  /** hfmqtt_unsub fails exactly for a topic of more than 64 bytes and for one that is not held. */
  lemma UnsubscribedExactly(s: Session, topic: Topic)
    requires Fits(s)
    ensures var (t, code) := Unsubscribed(s, topic);
            code == (if |topic| > 64 then -7 else if Held(s, topic) then 0 else -9) && (code != 0 ==> t == s)
  {
    HeldIsHolding(s, topic);
    hide Holding, Held;
  }

  /** An acknowledgement that no slot waits for changes nothing. */
  lemma StrayAcks(s: Session, id: nat)
    requires Fits(s)
    ensures (forall i :: 0 <= i < |s.slots| && s.slots[i].flag == 2 ==> s.slots[i].id != id) ==> Handle(s, Suback(id)) == s
    ensures (forall i :: 0 <= i < |s.slots| && s.slots[i].flag == 4 ==> s.slots[i].id != id) ==> Handle(s, Unsuback(id)) == s
  {
    hide Advance;
  }

  /** A refused login closes the session, as the disconnection does: every topic held is wanted
      again, and nothing is sent or reported. */
  lemma RefusedLoginCloses(s: Session, code: int)
    requires Fits(s) && code != 0
    ensures var t := Handle(s, Connack(code));
            && t == Handle(s, Disconnect) && t.status == 0 && t.sent == s.sent && t.events == s.events && t.nextId == s.nextId
            && |t.slots| == |s.slots|
            && forall i :: 0 <= i < |s.slots| ==>
                 t.slots[i] == Slot(if s.slots[i].flag == 0 then 0 else 1, s.slots[i].topic, 0)
  {
    hide Advance;
    assert forall i :: 0 <= i < |s.slots| ==> Reset(s.slots)[i] == Slot(if s.slots[i].flag != 0 then 1 else 0, s.slots[i].topic, 0);
  }

  // ------------------------------------------------------------- how many are being subscribed

  /** In general runs, a step keeps at most one slot in subscription unless the broker accepts the
      connection again while one slot is in subscription and another is wanted. */
  lemma OnePendingKept(s: Session, input: Input)
    requires Inv(s) && AtMostOne(s.slots, 2)
    ensures AtMostOne(Step(s, input).slots, 2) <==>
            !(input == Broker(Connack(0)) && First(s.slots, 2) < |s.slots| && First(s.slots, 1) < |s.slots|)
  {
    hide SubscribePacket, Advance;
    match input
    case Broker(Connack(code)) => PendingAdvance(s);
    case Broker(Suback(id)) => PendingSuback(s, id);
    case _ =>
  }

  /** Choosing a wanted slot adds one in subscription. */
  lemma PendingAdvance(s: Session)
    requires Fits(s) && AtMostOne(s.slots, 2)
    ensures AtMostOne(Advance(s).slots, 2) <==> !(First(s.slots, 2) < |s.slots| && First(s.slots, 1) < |s.slots|)
  {
    hide SubscribePacket;
    var i, k, t := First(s.slots, 1), First(s.slots, 2), Advance(s);
    if i < |s.slots| && k < |s.slots| {
      assert t.slots[i].flag == 2 && t.slots[k].flag == 2;
      if i < k { assert !AtMostOne(t.slots, 2); } else { assert !AtMostOne(t.slots, 2); }
    }
  }

  lemma PendingSuback(s: Session, id: nat)
    requires Inv(s) && AtMostOne(s.slots, 2)
    ensures AtMostOne(Handle(s, Suback(id)).slots, 2)
  {
    hide SubscribePacket, Advance;
    var i := FirstWithId(s.slots, 2, id);
    if i < |s.slots| {
      var t := s.(slots := WithFlag(s.slots, i, 3), events := s.events + [SubSucceeded(s.slots[i].topic)]);
      assert forall k :: 0 <= k < |t.slots| ==> t.slots[k].flag != 2;
      PendingAdvance(t);
    }
  }

  /** Two acceptances in a row with two wanted topics leave two slots in subscription. */
  lemma AcceptedTwice()
    ensures var free := Slot(0, [], 0);
            var s := Session([Slot(1, [1], 0), Slot(1, [2], 0), free, free, free], 0, 1, [], []);
            Inv(s) && Fresh(s) && !AtMostOne(Run(s, [Broker(Connack(0)), Broker(Connack(0))]).slots, 2)
  {
    var free := Slot(0, [], 0);
    var slots := [Slot(1, [1], 0), Slot(1, [2], 0), free, free, free];
    var s := Session(slots, 0, 1, [], []);
    var t := Handle(s, Connack(0));
    assert t.slots == [Slot(2, [1], 1), Slot(1, [2], 0), free, free, free];
    HandleKeeps(s, Connack(0));
    var ts := t.slots;
    assert First(ts, 1) == 1 by { assert ts[0].flag == 2 && ts[1].flag == 1; }
    var u := Handle(t, Connack(0));
    assert u.slots[0].flag == 2 && u.slots[1].flag == 2;
    HandleKeeps(t, Connack(0));
    var one := Broker(Connack(0));
    assert [one, one][1..] == [one] && [one][1..] == [];
    assert Run(t, [one]) == Run(u, []) == u;
    assert Run(s, [one, one]) == Run(t, [one]);
  }

  // ------------------------------------------------------------- the code

  /** The message a packet carries; topic and payload as mqtt_parse_pub_topic and
      mqtt_parse_publish_msg copy them. */
  function Read(p: seq<Byte>): Message
    requires Readable(p)
  {
    var t := MessageType(p);
    if t == 0xE0 then Disconnect
    else if t == 0x20 then Connack(p[3])
    else if t == SUBACK then Suback(MsgId(p))
    else if t == PUBLISH then
      Publish(p[LengthBytes(p) + 3..LengthBytes(p) + 3 + TopicLength(p)],
              p[MsgOffset(p)..MsgOffset(p) + MsgLength(p)], MessageQos(p), MsgId(p))
    else if t == UNSUBACK then Unsuback(MsgId(p))
    else if t == 0xD0 then Pingresp
    else Ignored
  }

  /** What the code reads of a packet lies in the packet, and a published topic and message fit
      the buffers they are copied to. */
  predicate Readable(p: seq<Byte>) {
    && HasHeader(p) && |p| > 3
    && (MessageType(p) == PUBLISH ==>
          && LengthBytes(p) + 3 + TopicLength(p) <= |p| && TopicLength(p) <= TOPIC_MAX
          && MsgOffset(p) + MsgLength(p) <= |p| && MsgLength(p) <= 1500
          && (MessageQos(p) != 0 ==> NarrowOffset(p) + 1 < |p|))
  }

  /** Packets of the broker, byte by byte as chapter 3 of MQTT 3.1.1 lays them out, and what the
      session makes of them. */
  lemma BrokerPackets(id: nat, code: Byte, rest: seq<Byte>)
    requires id < WORD && |rest| >= 2
    ensures var hi, lo := id / 256, id % 256;
            && Readable([0x20, 2, 0, code]) && Read([0x20, 2, 0, code]) == Connack(code)
            && Readable([0x90, 3, hi, lo, code]) && Read([0x90, 3, hi, lo, code]) == Suback(id)
            && Readable([0xB0, 2, hi, lo]) && Read([0xB0, 2, hi, lo]) == Unsuback(id)
            && Readable([0xD0, 0] + rest) && Read([0xD0, 0] + rest) == Pingresp
            && Readable([0xE0, 0] + rest) && Read([0xE0, 0] + rest) == Disconnect
  {
    assert [3, id / 256, id % 256, code][0] < 128;
  }

  /** A message published with a topic of up to 64 bytes is delivered once, as it was sent; for
      levels 1 and 2 its id is acknowledged, for level 0 nothing is. */
  lemma PublishedIsReceived(s: Session, topic: seq<Byte>, payload: seq<Byte>, retain: bool, qos: nat, id: nat)
    requires Inv(s) && |topic| <= TOPIC_MAX && |payload| <= 1500 && qos <= 2 && id < WORD
    ensures var p := PublishPacket(topic, payload, retain, qos, id);
            && Readable(p)
            && Handle(s, Read(p)) ==
               s.(events := s.events + [Received(topic, payload)],
                  sent := if qos == 0 then s.sent else s.sent + [PubackSent(id)])
  {
    hide DecodeLength, PublishPacket, LengthBytes, TopicLength, MsgOffset, MsgLength, MsgId, NarrowOffset;
    ShortTopicRoundTrip(topic, payload, retain, qos, id);
    PublishFacts(topic, payload, retain, qos, id);
  }

  class Client {
    const flag: array<int>
    const topic: array<Topic>
    const msgId: array<nat>
    const broker: MqttCodec.Broker
    var status: int
    var errno: int
    var events: seq<Event>
    var sent: seq<Sent>

    ghost predicate Valid()
      reads this, flag, topic, msgId, broker
    {
      && flag.Length == SLOTS && topic.Length == SLOTS && msgId.Length == SLOTS && broker.nextId < WORD
      && Inv(State())
    }

    ghost function Slots(): (r: seq<Slot>)
      requires flag.Length == SLOTS && topic.Length == SLOTS && msgId.Length == SLOTS
      reads this, flag, topic, msgId
      ensures |r| == SLOTS && forall i :: 0 <= i < SLOTS ==> r[i] == Slot(flag[i], topic[i], msgId[i])
    {
      seq(SLOTS, i requires 0 <= i < SLOTS reads this, flag, topic, msgId => Slot(flag[i], topic[i], msgId[i]))
    }

    ghost function State(): Session
      requires flag.Length == SLOTS && topic.Length == SLOTS && msgId.Length == SLOTS
      reads this, flag, topic, msgId, broker
    {
      Session(Slots(), status, broker.nextId, events, sent)
    }

    /** hfmqtt_init */
    constructor ()
      ensures Valid() && State() == Session(seq(SLOTS, _ => Slot(0, [], 0)), 0, 1, [], [])
      ensures fresh(flag) && fresh(topic) && fresh(msgId) && fresh(broker)
    {
      flag := new int[SLOTS](_ => 0);
      topic := new Topic[SLOTS](_ => []);
      msgId := new nat[SLOTS](_ => 0);
      broker := new MqttCodec.Broker();
      status, errno, events, sent := 0, 0, [], [];
      new;
      StartInv();
      assert Slots() == seq(SLOTS, _ => Slot(0, [], 0));
    }

    /** get_sub_topic_index */
    method GetIndex(wanted: int) returns (i: int)
      requires Valid()
      ensures i == if First(Slots(), wanted) < SLOTS then First(Slots(), wanted) else -1
    {
      i := 0;
      while i < SLOTS
        invariant 0 <= i <= SLOTS
        invariant forall j :: 0 <= j < i ==> Slots()[j].flag != wanted
      {
        if flag[i] == wanted {
          return;
        }
        i := i + 1;
      }
      i := -1;
    }

    /** get_sub_topic_index_by_msg_id */
    method GetIndexById(wanted: int, id: nat) returns (i: int)
      requires Valid()
      ensures i == if FirstWithId(Slots(), wanted, id) < SLOTS then FirstWithId(Slots(), wanted, id) else -1
    {
      i := 0;
      while i < SLOTS
        invariant 0 <= i <= SLOTS
        invariant forall j :: 0 <= j < i ==> !(Slots()[j].flag == wanted && Slots()[j].id == id)
      {
        if flag[i] == wanted && msgId[i] == id {
          return;
        }
        i := i + 1;
      }
      i := -1;
    }

    method FindTopic(t: Topic) returns (i: int)
      requires Valid()
      ensures i == if Holding(Slots(), t) < SLOTS then Holding(Slots(), t) else -1
    {
      i := 0;
      while i < SLOTS
        invariant 0 <= i <= SLOTS
        invariant forall j :: 0 <= j < i ==> !(Slots()[j].flag != 0 && Slots()[j].topic == t)
      {
        if flag[i] != 0 && topic[i] == t {
          return;
        }
        i := i + 1;
      }
      i := -1;
    }

    /** The end of the branches for CONNACK and SUBACK. */
    method SubscribeNext()
      requires Valid()
      modifies this, flag, msgId, broker
      ensures Valid() && State() == Advance(old(State()))
    {
      hide SubscribePacket;
      ghost var s := State();
      AdvanceKeeps(s);
      var index := GetIndex(1);
      if index >= 0 {
        var ret, packet, id := Subscribe(broker, topic[index], 0);
        msgId[index] := id;
        sent := sent + [SubscribeSent(packet)];
        flag[index] := 2;
        assert Slots() == s.slots[index := Slot(2, s.slots[index].topic, s.nextId)];
      } else {
        status := 1;
        events := events + [Connected];
        assert Slots() == s.slots;
      }
    }

    /** mqtt_init_para */
    method ResetSlots()
      requires flag.Length == SLOTS && topic.Length == SLOTS && msgId.Length == SLOTS
      modifies flag, msgId
      ensures Slots() == Reset(old(Slots()))
    {
      ghost var slots := Slots();
      for i := 0 to SLOTS
        invariant forall j :: 0 <= j < i ==> flag[j] == (if slots[j].flag != 0 then 1 else 0) && msgId[j] == 0
        invariant forall j :: i <= j < SLOTS ==> flag[j] == slots[j].flag && msgId[j] == slots[j].id
      {
        if flag[i] != 0 {
          flag[i] := 1;
        }
        msgId[i] := 0;
      }
      assert Slots() == Reset(slots);
    }

    /** hfmqtt_close */
    method CloseSession()
      requires Valid()
      modifies this, flag, msgId
      ensures Valid() && State() == Closed(old(State()))
    {
      hide Inv;
      ghost var s := State();
      CloseKeeps(s);
      status := 0;
      assert Slots() == s.slots;
      ResetSlots();
    }

    /** app_parse_mqttmsg */
    method ParseMessage(packet: array<Byte>)
      requires Valid() && Readable(packet[..])
      modifies this, flag, msgId, broker
      ensures Valid() && State() == Handle(old(State()), Read(packet[..]))
    {
      hide SubscribePacket, Advance, DecodeLength, MsgId, MsgOffset, MsgLength, TopicLength, LengthBytes, Distinct;
      ghost var s, p := State(), packet[..];
      HandleKeeps(s, Read(p));
      var kind := packet[0] / 16 * 16;
      if kind == 0xE0 {
        CloseSession();
      } else if kind == 0x20 {
        if packet[3] == 0 {
          SubscribeNext();
        } else {
          CloseSession();
        }
      } else if kind == SUBACK {
        var id := ParseMsgId(packet);
        SubackReceived(id);
      } else if kind == PUBLISH {
        PublishReceived(packet);
      } else if kind == UNSUBACK {
        var id := ParseMsgId(packet);
        UnsubackReceived(id);
      } else if kind == 0xD0 {
        events := events + [PingResponse];
        assert Slots() == s.slots;
      }
    }

    method SubackReceived(id: nat)
      requires Valid()
      modifies this, flag, msgId, broker
      ensures Valid() && State() == Handle(old(State()), Suback(id))
    {
      hide Advance;
      ghost var s := State();
      HandleKeeps(s, Suback(id));
      var index := GetIndexById(2, id);
      if index >= 0 {
        flag[index] := 3;
        events := events + [SubSucceeded(topic[index])];
        assert Slots() == WithFlag(s.slots, index, 3);
        SubscribeNext();
      }
    }

    method UnsubackReceived(id: nat)
      requires Valid()
      modifies this, flag, msgId
      ensures Valid() && State() == Handle(old(State()), Unsuback(id))
    {
      ghost var s := State();
      HandleKeeps(s, Unsuback(id));
      hide Inv;
      var index := GetIndexById(4, id);
      if index >= 0 {
        flag[index] := 0;
        msgId[index] := 0;
        events := events + [UnsubSucceeded(topic[index])];
        assert Slots() == s.slots[index := Slot(0, s.slots[index].topic, 0)];
      }
    }

    method PublishReceived(packet: array<Byte>)
      requires Valid() && Readable(packet[..]) && MessageType(packet[..]) == PUBLISH
      modifies this
      ensures Valid() && State() == Handle(old(State()), Read(packet[..]))
    {
      hide DecodeLength, MsgId, MsgOffset, MsgLength, TopicLength, LengthBytes, Distinct;
      ghost var s, p := State(), packet[..];
      HandleKeeps(s, Read(p));
      hide Inv;
      var topicLen, topicAt := ParsePubTopicPtr(packet);
      var msgLen, msgAt := ParsePubMsgPtr(packet);
      var name, payload := packet[topicAt..topicAt + topicLen], packet[msgAt..msgAt + msgLen];
      assert name == p[topicAt..topicAt + topicLen] && payload == p[msgAt..msgAt + msgLen];
      events := events + [Received(name, payload)];
      var qos := packet[0] / 2 % 4;
      var id := ParseMsgId(packet);
      if qos == 1 || qos == 2 {
        sent := sent + [PubackSent(id)];
      }
      assert Slots() == s.slots;
    }

    method Occupy(i: nat, t: Topic)
      requires flag.Length == SLOTS && topic.Length == SLOTS && msgId.Length == SLOTS && i < SLOTS
      modifies flag, topic, msgId
      ensures Slots() == old(Slots())[i := Slot(1, t, 0)]
    {
      ghost var slots := Slots();
      flag[i] := 1;
      topic[i] := t;
      msgId[i] := 0;
      assert Slots() == slots[i := Slot(1, t, 0)];
    }

    /** hfmqtt_sub */
    method SubscribeTopic(t: Topic) returns (ret: int)
      requires Valid()
      modifies this, flag, topic, msgId
      ensures Valid() && State() == Subscribed(old(State()), t).0
      ensures Subscribed(old(State()), t).1 == 0 ==> ret == 0 && errno == old(errno)
      ensures Subscribed(old(State()), t).1 != 0 ==> ret == -1 && errno == Subscribed(old(State()), t).1
    {
      hide First, Holding, Distinct;
      ghost var s := State();
      StepKeeps(s, Sub(t));
      if |t| > TOPIC_MAX {
        errno := TOPIC_OVERSIZE;
        assert Slots() == s.slots;
        return -1;
      }
      var held := FindTopic(t);
      if held >= 0 {
        errno := TOPIC_REPET;
        assert Slots() == s.slots;
        return -1;
      }
      var i := GetIndex(0);
      if i >= 0 {
        Occupy(i, t);
        return 0;
      }
      errno := TOPIC_FULL;
      assert Slots() == s.slots;
      ret := -1;
    }

    /** hfmqtt_unsub; of mqtt_unsubscribe only the id it takes is kept. */
    method UnsubscribeTopic(t: Topic) returns (ret: int)
      requires Valid()
      modifies this, flag, topic, msgId, broker
      ensures Valid() && State() == Unsubscribed(old(State()), t).0
      ensures Unsubscribed(old(State()), t).1 == 0 ==> ret == 0 && errno == old(errno)
      ensures Unsubscribed(old(State()), t).1 != 0 ==> ret == -1 && errno == Unsubscribed(old(State()), t).1
    {
      hide First, Holding, Distinct;
      ghost var s := State();
      StepKeeps(s, Unsub(t));
      if |t| > TOPIC_MAX {
        errno := TOPIC_OVERSIZE;
        assert Slots() == s.slots;
        return -1;
      }
      var i := FindTopic(t);
      if i < 0 {
        errno := TOPIC_NOFIND;
        assert Slots() == s.slots;
        return -1;
      }
      if flag[i] == 3 && status == 1 {
        flag[i] := 4;
        msgId[i] := broker.nextId;
        sent := sent + [UnsubscribeSent(topic[i], broker.nextId)];
        broker.nextId := (broker.nextId + 1) % WORD;
        assert Slots() == s.slots[i := Slot(4, t, s.nextId)];
      } else {
        flag[i] := 0;
        msgId[i] := 0;
        events := events + [UnsubSucceeded(topic[i])];
        assert Slots() == s.slots[i := Slot(0, t, 0)];
      }
      ret := 0;
    }
  }
}
