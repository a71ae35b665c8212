/** The allow-list event bus (`EventEmitter` in src/index.js): a dictionary from
    event name to the ordered list of callbacks registered under that name.
    A thrown `Error` is modelled as a `Fail`/`Failure` result. */
module EventBus {
  import opened Wrappers

  /** A value handed to `on` as a callback: a function (identified by `id`)
      or any other JavaScript value. */
  datatype Handler = Function(id: nat) | NotAFunction

  datatype BusError = InvalidEventName(name: string) | InvalidCallback

  /** One invocation `listener(data)` performed by `emit`. */
  datatype Call<D> = Call(listener: Handler, data: D)

  class EventEmitter<D> {
    const validEvents: seq<string>
    var eventListeners: map<string, seq<Handler>>

    /** Only allow-listed names have entries, and only functions are stored. */
    ghost predicate Valid()
      reads this
    {
      && (forall n :: n in eventListeners ==> n in validEvents)
      && (forall n, i :: n in eventListeners && 0 <= i < |eventListeners[n]| ==> eventListeners[n][i].Function?)
    }

    /** The callbacks registered under `name`, oldest first (none when absent). */
    function Listeners(name: string): seq<Handler>
      reads this
    {
      if name in eventListeners then eventListeners[name] else []
    }

    constructor (validEvents: seq<string>)
      ensures Valid()
      ensures this.validEvents == validEvents && eventListeners == map[]
    {
      this.validEvents := validEvents;
      eventListeners := map[];
    }

    /** `on(eventName, callback)`: throws for a name outside the allow-list or a
        callback that is not a function; otherwise appends the callback. */
    method On(name: string, callback: Handler) returns (r: Outcome<BusError>)
      requires Valid()
      modifies this
      ensures Valid()
      ensures name !in validEvents ==> r == Fail(InvalidEventName(name)) && eventListeners == old(eventListeners)
      ensures name in validEvents && !callback.Function? ==>
                r == Fail(InvalidCallback) && eventListeners == old(eventListeners)
      ensures name in validEvents && callback.Function? ==>
                r == Pass && eventListeners == old(eventListeners)[name := old(Listeners(name)) + [callback]]
    {
      if name !in validEvents {
        return Fail(InvalidEventName(name));
      }
      if !callback.Function? {
        return Fail(InvalidCallback);
      }
      if name !in eventListeners {
        eventListeners := eventListeners[name := []];
      }
      eventListeners := eventListeners[name := eventListeners[name] + [callback]];
      r := Pass;
    }

    /** `off(eventName)`: throws for a name outside the allow-list; otherwise
        drops every callback of that name and no other. */
    method Off(name: string) returns (r: Outcome<BusError>)
      requires Valid()
      modifies this
      ensures Valid()
      ensures name !in validEvents ==> r == Fail(InvalidEventName(name)) && eventListeners == old(eventListeners)
      ensures name in validEvents ==> r == Pass && eventListeners == old(eventListeners) - {name}
      ensures name in validEvents ==> Listeners(name) == []
      ensures forall other :: other != name ==> Listeners(other) == old(Listeners(other))
    {
      if name !in validEvents {
        return Fail(InvalidEventName(name));
      }
      r := Pass;
      if name !in eventListeners {
        return;
      }
      eventListeners := eventListeners - {name};
    }

    /** `emit(eventName, data)`: throws for a name outside the allow-list;
        otherwise calls exactly the callbacks registered under the name, in
        registration order, each with `data`. */
    method Emit(name: string, data: D) returns (r: Result<seq<Call<D>>, BusError>)
      ensures name !in validEvents ==> r == Failure(InvalidEventName(name))
      ensures name in validEvents ==> r.Success? && |r.value| == |Listeners(name)|
      ensures name in validEvents ==>
                forall i :: 0 <= i < |r.value| ==> r.value[i] == Call(Listeners(name)[i], data)
    {
      if name !in validEvents {
        return Failure(InvalidEventName(name));
      }
      if name !in eventListeners {
        return Success([]);
      }
      var listeners := eventListeners[name];
      var calls: seq<Call<D>> := [];
      var i := 0;
      while i < |listeners|
        invariant 0 <= i <= |listeners|
        invariant |calls| == i
        invariant forall j :: 0 <= j < i ==> calls[j] == Call(listeners[j], data)
      {
        calls := calls + [Call(listeners[i], data)];
        i := i + 1;
      }
      r := Success(calls);
    }

    /** `destroy()`: replaces the table by an empty one. */
    method Destroy()
      requires Valid()
      modifies this
      ensures Valid() && eventListeners == map[]
    {
      eventListeners := map[];
    }
  }
}
