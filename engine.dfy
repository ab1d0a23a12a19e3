/** The outside world the bulk-load driver talks to, as an oracle: the
    workflow engine's flight table and work queue (Stairway), the active pod
    count (KubeService), the LOAD_CONCURRENT_FILES configuration value, and
    the passing of time. Time is a finite trace of ticks: each wait consumes
    one tick, which may change the status of known flights, the pod count and
    whether the queue accepts work. When the trace is exhausted the
    observation ends. */
module Engine {
  import opened Common
  import opened Stairway

  /** The input parameters of one file-ingest worker flight (DATASET_ID,
      REQUEST, BUCKET_INFO). */
  datatype WorkerInputs = WorkerInputs(datasetId: string, request: FileLoadModel, bucketInfo: Option<Bucket>)

  datatype Submission = Submission(flightId: FlightId, inputs: WorkerInputs)

  /** What one wait of the driver lets happen elsewhere. */
  datatype Tick = Tick(statusChanges: map<FlightId, FlightState>, podCount: int, queueAccepts: bool)

  /** The state a freshly submitted flight is reported in. */
  const QueuedFlight := FlightState(Queued, None, None)

  /** The flight table after a tick: only flights already known change. */
  function Advance(flights: map<FlightId, FlightState>, changes: map<FlightId, FlightState>): (r: map<FlightId, FlightState>)
    ensures r.Keys == flights.Keys
    ensures forall id :: id in r ==> r[id] == (if id in changes then changes[id] else flights[id])
  {
    map id | id in flights :: if id in changes then changes[id] else flights[id]
  }

  class Environment {
    var flights: map<FlightId, FlightState>
    var nextFlightId: FlightId
    var submitted: seq<Submission>
    var podCount: int
    var concurrentFiles: int
    var queueAccepts: bool
    var ticks: seq<Tick>

    /** Every known flight id was issued before the next one. */
    ghost predicate Valid()
      reads this
    {
      forall id :: id in flights ==> id < nextFlightId
    }

    constructor (flights0: map<FlightId, FlightState>, nextFlightId0: FlightId, podCount0: int,
                 concurrentFiles0: int, queueAccepts0: bool, ticks0: seq<Tick>)
      requires forall id :: id in flights0 ==> id < nextFlightId0
      ensures Valid()
      ensures flights == flights0 && submitted == [] && podCount == podCount0
      ensures concurrentFiles == concurrentFiles0 && queueAccepts == queueAccepts0 && ticks == ticks0
    {
      flights := flights0;
      nextFlightId := nextFlightId0;
      submitted := [];
      podCount := podCount0;
      concurrentFiles := concurrentFiles0;
      queueAccepts := queueAccepts0;
      ticks := ticks0;
    }

    /** Stairway.getFlightState: the state of a known flight, None standing
        for FlightNotFoundException. */
    function GetFlightState(id: FlightId): (r: Option<FlightState>)
      reads this
      ensures r.Some? <==> id in flights
      ensures r.Some? ==> r.value == flights[id]
    {
      if id in flights then Some(flights[id]) else None
    }

    /** KubeService.getActivePodCount. */
    function GetActivePodCount(): int
      reads this
    {
      podCount
    }

    /** Stairway.createFlightId: an id no flight has and none was issued with. */
    method CreateFlightId() returns (id: FlightId)
      requires Valid()
      modifies this`nextFlightId
      ensures Valid()
      ensures id !in flights && id == old(nextFlightId) && nextFlightId == id + 1
    {
      id := nextFlightId;
      nextFlightId := nextFlightId + 1;
    }

    /** Stairway.submitToQueue: fails (StairwayExecutionException) when the
        queue does not accept work or the id is taken; otherwise the flight
        becomes known in the QUEUED state. */
    method SubmitToQueue(id: FlightId, inputs: WorkerInputs) returns (ok: bool)
      requires Valid()
      modifies this`flights, this`submitted, this`nextFlightId
      ensures Valid()
      ensures ok <==> old(queueAccepts) && id !in old(flights)
      ensures ok ==> flights == old(flights)[id := QueuedFlight] && submitted == old(submitted) + [Submission(id, inputs)]
      ensures !ok ==> flights == old(flights) && submitted == old(submitted)
      ensures nextFlightId >= old(nextFlightId)
    {
      ok := queueAccepts && id !in flights;
      if ok {
        flights := flights[id := QueuedFlight];
        submitted := submitted + [Submission(id, inputs)];
        if nextFlightId <= id {
          nextFlightId := id + 1;
        }
      }
    }

    /** One wait: consumes the next tick, or reports that the trace has ended. */
    method Sleep() returns (awake: bool)
      requires Valid()
      modifies this`flights, this`podCount, this`queueAccepts, this`ticks
      ensures Valid()
      ensures awake <==> old(ticks) != []
      ensures awake ==> ticks == old(ticks)[1..] && flights == Advance(old(flights), old(ticks)[0].statusChanges)
      ensures awake ==> podCount == old(ticks)[0].podCount && queueAccepts == old(ticks)[0].queueAccepts
      ensures !awake ==> flights == old(flights) && podCount == old(podCount) && queueAccepts == old(queueAccepts) && ticks == old(ticks)
      ensures flights.Keys == old(flights).Keys
    {
      awake := ticks != [];
      if awake {
        var t := ticks[0];
        flights := Advance(flights, t.statusChanges);
        podCount := t.podCount;
        queueAccepts := t.queueAccepts;
        ticks := ticks[1..];
      }
    }
  }
}
