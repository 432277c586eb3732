/** The string-keyed event registration `on(action, fn)`: which callback
    slot an action name selects. */
module Events {
  import opened Pcm

  datatype Event = Play | Stop | Ended | StartRecord | CancelRecord | FinishRecord

  /** The action name that selects each slot. */
  function Name(e: Event): string
  {
    match e
    case Play => "play"
    case Stop => "stop"
    case Ended => "ended"
    case StartRecord => "startRecord"
    case CancelRecord => "cancelRecord"
    case FinishRecord => "finishRecord"
  }

  /** The `switch (action)` of src/BenzAMRRecorder.js: the slot named by
      `action`, or none for any other string (the empty `default:`). */
  function EventOf(action: string): (e: Option<Event>)
    ensures e.Some? ==> Name(e.value) == action
    ensures e.None? ==> forall ev :: Name(ev) != action
  {
    match action
    case "play" => Some(Play)
    case "stop" => Some(Stop)
    case "ended" => Some(Ended)
    case "startRecord" => Some(StartRecord)
    case "cancelRecord" => Some(CancelRecord)
    case "finishRecord" => Some(FinishRecord)
    case _ => None
  }

  /** The `switch (action)` of the recorder bundle, which has no
      'cancelRecord' case. */
  function LegacyEventOf(action: string): (e: Option<Event>)
    ensures e.Some? ==> Name(e.value) == action && e.value != CancelRecord
    ensures e.None? ==> forall ev :: ev != CancelRecord ==> Name(ev) != action
  {
    match action
    case "play" => Some(Play)
    case "stop" => Some(Stop)
    case "ended" => Some(Ended)
    case "startRecord" => Some(StartRecord)
    case "finishRecord" => Some(FinishRecord)
    case _ => None
  }

  /** Every slot is reachable by its own name, and by no other. */
  lemma NameSelectsItsEvent(e: Event, action: string)
    ensures EventOf(Name(e)) == Some(e)
    ensures e != CancelRecord ==> LegacyEventOf(Name(e)) == Some(e)
    ensures LegacyEventOf(Name(CancelRecord)) == None
    ensures EventOf(action) == Some(e) <==> action == Name(e)
  {
  }

  /** The callbacks invoked by `if (this._onX) { this._onX(); }`. */
  function Invoked(slot: Option<Callback>): (calls: seq<Callback>)
    ensures slot.None? <==> calls == []
    ensures slot.Some? ==> calls == [slot.value]
  {
    if slot.Some? then [slot.value] else []
  }
}
