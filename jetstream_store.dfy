/**
 * The JetStream store of the user interface: the selected time range, the
 * `loading` flag, the streams the worker reported and the buffer of
 * messages it forwarded. `fetchStreams` asks the worker for the streams of
 * the current window; the worker's `streams` and `message` events update
 * the state.
 *
 * The clock is the `now` argument of the operations that read it, and the
 * requests posted to the worker are kept as a log.
 */
module JetStreamStore {
  import opened Wrappers
  import opened Broker
  import opened TimeWindow

  /** A request posted to the worker, carrying the window's start in milliseconds. */
  datatype WorkerRequest = GetStreams(startTime: int)

  /** The `data` of an event the worker posts back. */
  datatype WorkerEvent =
    | StreamsEvent(streams: seq<StreamDescriptor>)
    | MessageEvent(message: Message)
    | OtherEvent(kind: string)   // an event whose `type` is neither of the above

  class Store {
    var timeRange: string
    var loading: bool
    var streams: seq<StreamDescriptor>
    var messages: seq<Message>
    /** The requests posted to the worker so far, oldest first. */
    var posted: seq<WorkerRequest>

    /**
     * Setting the store up: the "Live" range, nothing loaded, and the first
     * `fetchStreams`, which is already loading and has asked for the last
     * five minutes.
     */
    constructor (now: int)
      ensures timeRange == LiveLabel && streams == []
      ensures loading && messages == []
      ensures posted == [GetStreams(now - 300000)]
    {
      timeRange := LiveLabel;
      loading := false;
      streams := [];
      messages := [];
      posted := [];
      new;
      var posts := FetchStreams(now);
    }

    /**
     * The store's `startTime` at clock reading `now`: the start of the
     * selected window, which never lies after `now`. A unit moment has no
     * duration for leaves its duration at 0 ms or NaN, and subtracting
     * either from `now` leaves `now`; only a label the pattern does not
     * match makes reading `startTime` throw.
     */
    function WindowStart(now: int): (r: Result<int, DurationError>)
      reads this
      ensures r.Err? <==> timeRange != LiveLabel && Exec(timeRange).None?
      ensures r.Err? ==> r.error == NoMatch
      ensures r.Ok? ==> r.value <= now
      ensures Duration(timeRange).Ok? ==> r.Ok? && now - r.value == Duration(timeRange).value
      ensures Duration(timeRange).Err? && Duration(timeRange).error.UnknownUnit? ==> r == Ok(now)
    {
      match Duration(timeRange)
      case Ok(duration) => Ok(StartTime(now, duration))
      case Err(NoMatch) => Err(NoMatch)
      case Err(UnknownUnit(_)) => Ok(now)
    }

    /**
     * `fetchStreams`: marks the store as loading, empties the message buffer
     * and posts one `getStreams` request for the window that ends at `now`.
     * When the time range does not match the label pattern, reading
     * `startTime` throws after the first two steps and nothing is posted.
     */
    method FetchStreams(now: int) returns (posts: bool)
      modifies this
      ensures loading && messages == []
      ensures timeRange == old(timeRange) && streams == old(streams)
      ensures posts <==> WindowStart(now).Ok?
      ensures posts ==> posted == old(posted) + [GetStreams(WindowStart(now).value)]
      ensures !posts ==> posted == old(posted)
    {
      loading := true;
      messages := [];
      var start := WindowStart(now);
      posts := start.Ok?;
      if posts {
        posted := posted + [GetStreams(start.value)];
      }
    }

    /**
     * Choosing a time range. The store watches `timeRange`, so a new value
     * triggers `fetchStreams`; assigning the value it already has does not.
     */
    method SetTimeRange(range: string, now: int) returns (posts: bool)
      modifies this
      ensures timeRange == range && streams == old(streams)
      ensures range == old(timeRange) ==>
        !posts && loading == old(loading) && messages == old(messages) && posted == old(posted)
      ensures range != old(timeRange) ==> loading && messages == [] && (posts <==> WindowStart(now).Ok?)
      ensures range != old(timeRange) && posts ==> posted == old(posted) + [GetStreams(WindowStart(now).value)]
      ensures range != old(timeRange) && !posts ==> posted == old(posted)
    {
      if range == timeRange {
        posts := false;
      } else {
        timeRange := range;
        posts := FetchStreams(now);
      }
    }

    /**
     * `worker.onmessage`: a `streams` event replaces the streams and ends
     * loading, a `message` event appends its message to the buffer, and any
     * other event changes nothing.
     */
    method OnMessage(event: WorkerEvent)
      modifies this
      ensures timeRange == old(timeRange) && posted == old(posted)
      ensures event.StreamsEvent? ==>
        streams == event.streams && !loading && messages == old(messages)
      ensures event.MessageEvent? ==>
        messages == old(messages) + [event.message] && streams == old(streams) && loading == old(loading)
      ensures event.OtherEvent? ==>
        streams == old(streams) && loading == old(loading) && messages == old(messages)
    {
      match event
      case StreamsEvent(payload) =>
        streams := payload;
        loading := false;
      case MessageEvent(message) =>
        messages := messages + [message];
      case OtherEvent(_) =>
    }
  }
}
