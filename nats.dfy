/**
 * `getStreams` of the NATS worker: for every stream of the listed page it
 * subscribes one ephemeral push consumer that replays the stream from a
 * start time, gives the stream an empty message buffer that the
 * subscription's pump then appends to, and returns the listed array sorted
 * by stream name.
 *
 * The broker is abstracted: the page of streams the stream manager lists is
 * the `listed` argument, and the subscriptions are returned as a log of
 * `subscribe` calls in the order they were made.
 */
module Nats {
  import opened Broker
  import opened NameOrder

  /** The description every consumer of this tool carries. */
  const DebugDescription := "apollo-jetstream debug consumer"

  /** The subject filter that matches every subject. */
  const AllSubjects := ">"

  datatype AckPolicy = AckNone | AckAll | AckExplicit

  datatype DeliverPolicy =
    | DeliverAll | DeliverLast | DeliverNew | DeliverStartSequence | DeliverStartTime | DeliverLastPerSubject

  datatype ReplayPolicy = ReplayInstant | ReplayOriginal

  /**
   * The deliver subject returned by the `ordinal`-th `createInbox` call of
   * one `getStreams`; the broker client makes each such subject unique.
   */
  datatype Inbox = Inbox(ordinal: nat)

  datatype ConsumerConfig = ConsumerConfig(
    ackPolicy: AckPolicy,
    deliverPolicy: DeliverPolicy,
    deliverSubject: Inbox,
    description: string,
    optStartTime: string,
    replayPolicy: ReplayPolicy)

  /** One `js.subscribe(filter, { config, stream })` call. */
  datatype Subscription = Subscription(filter: string, stream: string, config: ConsumerConfig)

  /**
   * A consumer that needs no acknowledgements, starts delivering at
   * `startTime`, replays as fast as it can and is tagged as this tool's.
   */
  predicate IsDebugConsumer(config: ConsumerConfig, startTime: string) {
    && config.ackPolicy == AckNone
    && config.deliverPolicy == DeliverStartTime
    && config.optStartTime == startTime
    && config.replayPolicy == ReplayInstant
    && config.description == DebugDescription
  }

  /** The consumer configuration `getStreams` builds for each stream. */
  function DebugConsumer(startTime: string, inbox: Inbox): (config: ConsumerConfig)
    ensures IsDebugConsumer(config, startTime) && config.deliverSubject == inbox
  {
    ConsumerConfig(AckNone, DeliverStartTime, inbox, DebugDescription, startTime, ReplayInstant)
  }

  /** A stream as the stream manager lists it; `name` is its `config.name`. */
  class Stream {
    const name: string
    var messages: seq<Message>

    constructor (name: string)
      ensures this.name == name && messages == []
    {
      this.name := name;
      messages := [];
    }
  }

  /** The streams are in ascending order of name. */
  ghost predicate SortedByName(s: seq<Stream>) {
    forall p, q :: 0 <= p < q < |s| ==> NameLe(s[p].name, s[q].name)
  }

  /** Each stream's name is at most the next one's. */
  ghost predicate AdjacentSorted(s: seq<Stream>) {
    forall k :: 0 < k < |s| ==> NameLe(s[k - 1].name, s[k].name)
  }

  lemma {:induction false} AdjacentSortedIsSorted(s: seq<Stream>)
    requires AdjacentSorted(s)
    ensures SortedByName(s)
  {
    if |s| > 1 {
      var n := |s| - 1;
      var t := s[..n];
      assert AdjacentSorted(t);
      AdjacentSortedIsSorted(t);
      forall p, q | 0 <= p < q < |s| ensures NameLe(s[p].name, s[q].name) {
        if q < n {
          assert t[p] == s[p] && t[q] == s[q];
        } else if p < n - 1 {
          assert t[p] == s[p] && t[n - 1] == s[n - 1];
          NameLeTransitive(s[p].name, s[n - 1].name, s[n].name);
        }
      }
    }
  }

  /** Exchanges two entries of the array. */
  method Swap(a: array<Stream>, i: nat, j: nat)
    requires i < a.Length && j < a.Length
    modifies a
    ensures a[..] == old(a[..])[i := old(a[j])][j := old(a[i])]
    ensures multiset(a[..]) == multiset(old(a[..]))
  {
    a[i], a[j] := a[j], a[i];
  }

  /**
   * Moves a[i] down past every larger name before it, so that a sorted
   * a[..i] becomes a sorted a[..i + 1].
   */
  method InsertByName(a: array<Stream>, i: nat)
    requires i < a.Length
    requires forall k :: 0 < k < i ==> NameLe(a[k - 1].name, a[k].name)
    modifies a
    ensures forall k :: 0 < k <= i ==> NameLe(a[k - 1].name, a[k].name)
    ensures a[i + 1..] == old(a[i + 1..])
    ensures multiset(a[..]) == multiset(old(a[..]))
  {
    var j := i;
    while j > 0 && !NameLe(a[j - 1].name, a[j].name)
      invariant 0 <= j <= i
      invariant forall k :: 0 < k <= i && k != j ==> NameLe(a[k - 1].name, a[k].name)
      invariant 0 < j < i ==> NameLe(a[j - 1].name, a[j + 1].name)
      invariant a[i + 1..] == old(a[i + 1..])
      invariant multiset(a[..]) == multiset(old(a[..]))
    {
      NameLeTotal(a[j - 1].name, a[j].name);
      Swap(a, j - 1, j);
      j := j - 1;
    }
  }

  /**
   * `streams.sort((a, b) => a.config.name.localeCompare(b.config.name))`:
   * sorts the array in place by name, as a stable insertion sort.
   */
  method SortByName(a: array<Stream>)
    modifies a
    ensures SortedByName(a[..])
    ensures multiset(a[..]) == multiset(old(a[..]))
  {
    var i := 0;
    while i < a.Length
      invariant 0 <= i <= a.Length
      invariant forall k :: 0 < k < i ==> NameLe(a[k - 1].name, a[k].name)
      invariant multiset(a[..]) == multiset(old(a[..]))
    {
      InsertByName(a, i);
      i := i + 1;
    }
    AdjacentSortedIsSorted(a[..]);
  }

  /**
   * The message pump of one subscription: every message received is pushed
   * onto the stream's buffer, in the order received.
   */
  method Pump(stream: Stream, received: seq<Message>)
    modifies stream
    ensures stream.messages == old(stream.messages) + received
  {
    for k := 0 to |received|
      invariant stream.messages == old(stream.messages) + received[..k]
    {
      stream.messages := stream.messages + [received[k]];
    }
    assert received[..|received|] == received;
  }

  /**
   * `getStreams(startTime)` on the listed page `listed`: subscribes one debug
   * consumer per stream, in list order, clears each stream's buffer, and
   * returns the same array sorted by name.
   */
  method GetStreams(startTime: string, listed: array<Stream>)
    returns (sorted: array<Stream>, subscriptions: seq<Subscription>)
    modifies listed, listed[..]
    ensures sorted == listed
    ensures |subscriptions| == listed.Length
    ensures forall k :: 0 <= k < |subscriptions| ==>
      && subscriptions[k].filter == AllSubjects
      && subscriptions[k].stream == old(listed[k]).name
      && IsDebugConsumer(subscriptions[k].config, startTime)
      && subscriptions[k].config.deliverSubject == Inbox(k)
    ensures forall k :: 0 <= k < listed.Length ==> listed[k].messages == []
    ensures SortedByName(listed[..])
    ensures multiset(listed[..]) == multiset(old(listed[..]))
  {
    subscriptions := [];
    for k := 0 to listed.Length
      invariant listed[..] == old(listed[..])
      invariant |subscriptions| == k
      invariant forall j :: 0 <= j < k ==>
        subscriptions[j] == Subscription(AllSubjects, listed[j].name, DebugConsumer(startTime, Inbox(j)))
      invariant forall j :: 0 <= j < k ==> listed[j].messages == []
    {
      var stream := listed[k];
      var config := DebugConsumer(startTime, Inbox(k));
      stream.messages := [];
      subscriptions := subscriptions + [Subscription(AllSubjects, stream.name, config)];
    }
    ghost var cleared := listed[..];
    SortByName(listed);
    forall k | 0 <= k < listed.Length ensures listed[k].messages == [] {
      assert listed[k] in multiset(cleared);
    }
    sorted := listed;
  }

  /**
   * Once `getStreams` has returned, a stream's buffer holds exactly the
   * messages its subscription has received since, in the order received.
   */
  method GetStreamsThenReceive(startTime: string, listed: array<Stream>, k: nat, received: seq<Message>)
    returns (sorted: array<Stream>, subscriptions: seq<Subscription>)
    requires k < listed.Length
    modifies listed, listed[..]
    ensures sorted == listed && |subscriptions| == listed.Length
    ensures listed[k].messages == received
  {
    sorted, subscriptions := GetStreams(startTime, listed);
    assert listed[k] in multiset(old(listed[..]));
    Pump(listed[k], received);
  }
}
