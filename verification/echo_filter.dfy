/**
  The echo filter: a test source that replays a list of JSON events, one per
  cycle, cycling back to the first after the last. Each event is merged into
  the `meta` dictionary of a copy of the first incoming frame, or becomes
  the metadata of a fresh frame when nothing comes in.
*/
module Echo {
  import opened Wrappers
  import opened Frames
  import opened Paths

  const MainTopic: string := "main"
  const MetaKey: string := "meta"

  /** Why a cycle fails: `meta` of the incoming frame is not a dictionary, or the event is not an object. */
  datatype EchoError = MetaNotADictionary | EventNotAnObject

  /** The index after the one just used: one further, wrapping to 0 after the last event. */
  function Next(i: nat, count: nat): (j: nat)
    requires i < count
    ensures j < count
    ensures j == if i + 1 == count then 0 else i + 1
  {
    (i + 1) % count
  }

  /** The output of a cycle that replays `event` over the incoming `frames`. */
  function EchoFrame(frames: Output, event: Value): (r: Result<Output, EchoError>)
    ensures r.Success? ==> |r.value| == 1 && r.value[0].0 == MainTopic
    ensures r.Failure? <==> (!event.Map? ||
      (frames != [] && MetaKey in frames[0].1.data && !frames[0].1.data[MetaKey].Map?))
  {
    if frames == [] then
      if event.Map? then Success([(MainTopic, DataFrame(event.fields))]) else Failure(EventNotAnObject)
    else
      var exemplar := frames[0].1;
      var meta := if MetaKey in exemplar.data then exemplar.data[MetaKey] else Map(map[]);
      if !meta.Map? then Failure(MetaNotADictionary)
      else if !event.Map? then Failure(EventNotAnObject)
      else
        var merged := Map(meta.fields + event.fields);
        Success([(MainTopic, exemplar.(data := exemplar.data[MetaKey := merged]))])
  }

  // ---------------------------------------------------------------------
  // What one cycle promises

  /** With no incoming frame, the event becomes the whole metadata of a frame without image. */
  lemma EchoWithoutInput(event: Value)
    requires event.Map?
    ensures var r := EchoFrame([], event);
      r.Success? && r.value[0].1.data == event.fields && r.value[0].1.image.None?
  {
  }

  /** An event key lands under `meta`, overriding what the incoming frame had there. */
  lemma EchoEventWins(frames: Output, event: Value, k: string)
    requires frames != [] && EchoFrame(frames, event).Success?
    requires k in event.fields
    ensures Read(EchoFrame(frames, event).value[0].1.data, [MetaKey, k]) == Present(event.fields[k])
  {
    var d := EchoFrame(frames, event).value[0].1.data;
    assert [MetaKey, k][1..] == [k];
  }

  /** A `meta` key the event does not mention keeps the incoming frame's value (absent stays absent). */
  lemma EchoKeepsOtherMeta(frames: Output, event: Value, k: string)
    requires frames != [] && EchoFrame(frames, event).Success?
    requires k !in event.fields
    ensures Read(EchoFrame(frames, event).value[0].1.data, [MetaKey, k]) == Read(frames[0].1.data, [MetaKey, k])
  {
    assert [MetaKey, k][1..] == [k];
  }

  /** The replayed frame always carries a `meta` dictionary; one missing from the incoming frame is created from the event alone. */
  lemma EchoMetaIsMap(frames: Output, event: Value)
    requires frames != [] && EchoFrame(frames, event).Success?
    ensures var d := EchoFrame(frames, event).value[0].1.data;
      MetaKey in d && d[MetaKey].Map? &&
      (MetaKey !in frames[0].1.data ==> d[MetaKey] == event)
  {
  }

  /** Everything of the incoming frame outside `meta` is kept: other keys, the image and its format. */
  lemma EchoKeepsRest(frames: Output, event: Value, q: seq<string>)
    requires frames != [] && EchoFrame(frames, event).Success?
    requires |q| >= 1 && q[0] != MetaKey
    ensures var f := EchoFrame(frames, event).value[0].1;
      && Read(f.data, q) == Read(frames[0].1.data, q)
      && f.image == frames[0].1.image && f.format == frames[0].1.format
  {
  }

  // ---------------------------------------------------------------------
  // Cycling

  /** The index after `n` cycles starting from `i`. */
  function After(i: nat, n: nat, count: nat): (j: nat)
    requires i < count
    ensures j < count
    decreases n
  {
    if n == 0 then i else Next(After(i, n - 1, count), count)
  }

  /** Cycles compose: `a` cycles and then `b` more are `a + b` cycles. */
  lemma {:induction false} AfterCompose(i: nat, a: nat, b: nat, count: nat)
    requires i < count
    ensures After(After(i, a, count), b, count) == After(i, a + b, count)
    decreases b
  {
    if b > 0 {
      AfterCompose(i, a, b - 1, count);
    }
  }

  /** Within one lap the index just counts up. */
  lemma {:induction false} AfterWithinLap(i: nat, n: nat, count: nat)
    requires i + n < count
    ensures After(i, n, count) == i + n
    decreases n
  {
    if n > 0 {
      AfterWithinLap(i, n - 1, count);
    }
  }

  /** After as many cycles as there are events, the filter is back where it started. */
  lemma FullCycle(i: nat, count: nat)
    requires i < count
    ensures After(i, count, count) == i
  {
    AfterWithinLap(i, count - 1 - i, count);
    assert After(i, count - i, count) == 0;
    AfterWithinLap(0, i, count);
    AfterCompose(i, count - i, i, count);
  }

  /** The replay order repeats with period equal to the number of events. */
  lemma Periodic(i: nat, n: nat, count: nat)
    requires i < count
    ensures After(i, n + count, count) == After(i, n, count)
  {
    FullCycle(i, count);
    AfterCompose(i, count, n, count);
  }

  /**
    The echo filter. `setup` loads the events (a failed load yields none) and
    starts at the first; each `process` replays the current event and moves on.
  */
  class EchoFilter {
    var events: seq<Value>
    var currentIndex: nat

    ghost predicate Valid()
      reads this
    {
      if events == [] then currentIndex == 0 else currentIndex < |events|
    }

    constructor()
      ensures events == [] && currentIndex == 0 && Valid()
    {
      events := [];
      currentIndex := 0;
    }

    /** `setup`: `loaded` is what reading the events file produced, `None` when it could not be read or parsed. */
    method Setup(loaded: Option<seq<Value>>)
      modifies this
      ensures events == (if loaded.Some? then loaded.value else [])
      ensures currentIndex == 0 && Valid()
    {
      currentIndex := 0;
      events := if loaded.Some? then loaded.value else [];
    }

    /**
      `process`: without events the input passes through unchanged; otherwise
      the current event is replayed and the index moves on (also when the
      replay then fails).
    */
    method Process(frames: Output) returns (out: Result<Output, EchoError>)
      requires Valid()
      modifies this`currentIndex
      ensures Valid()
      ensures events == [] ==> out == Success(frames) && currentIndex == old(currentIndex)
      ensures events != [] ==>
        out == EchoFrame(frames, events[old(currentIndex)]) && currentIndex == Next(old(currentIndex), |events|)
    {
      if events == [] {
        return Success(frames);
      }
      var event := events[currentIndex];
      currentIndex := (currentIndex + 1) % |events|;
      out := EchoFrame(frames, event);
    }
  }
}
