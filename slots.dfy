/** What a render receives, and the slot resolver built for each render. */
module Slots {
  import opened Values
  import opened Errors

  /** One call of `renderPage`: the store's plain keys, the error table, and
      the command in flight (`None` is JavaScript's `null`). */
  datatype View = View(
    actionResults: map<string, Value>,
    errors: map<string, ErrorState>,
    commandBeingExecuted: Option<string>)

  /** What a slot handler is called with; the bound commands it also receives
      are the page's own methods and are not a value here. */
  datatype SlotArgs = SlotArgs(
    actionResults: map<string, Value>,
    errors: map<string, ErrorState>,
    commandBeingExecuted: Option<string>,
    hostData: Value)

  /** A caller-supplied slot handler; its body is opaque. */
  type SlotHandler = SlotArgs -> Value

  /** The renderer `getSlot({id})` returns during the render of `view`: for a
      registered slot, a function of the host data that calls the handler with
      that render's state and in-flight command; otherwise a function that
      always yields `null`. */
  function CreateSlotRenderer(slots: map<string, SlotHandler>, view: View, id: string): (render: Value -> Value)
    ensures id !in slots ==> forall hostData :: render(hostData) == Null
    ensures id in slots ==> forall hostData ::
              render(hostData) == slots[id](SlotArgs(view.actionResults, view.errors, view.commandBeingExecuted, hostData))
  {
    if id in slots then
      var handler := slots[id];
      hostData => handler(SlotArgs(view.actionResults, view.errors, view.commandBeingExecuted, hostData))
    else
      hostData => Null
  }

  /** During the render of `view`, every registered slot calls its handler
      with `store`, `table`, the in-flight `command` and the host data it is
      given, and every other slot yields `null`. */
  ghost predicate SlotsSee(slots: map<string, SlotHandler>, view: View, store: map<string, Value>,
                           table: map<string, ErrorState>, command: Option<string>)
  {
    && (forall id: string, hostData: Value | id in slots ::
          CreateSlotRenderer(slots, view, id)(hostData) == slots[id](SlotArgs(store, table, command, hostData)))
    && (forall id: string, hostData: Value | id !in slots :: CreateSlotRenderer(slots, view, id)(hostData) == Null)
  }

  /** The slots of a render see exactly the state and the in-flight command
      that render was issued with. */
  lemma ViewSlots(slots: map<string, SlotHandler>, store: map<string, Value>,
                  table: map<string, ErrorState>, command: Option<string>)
    ensures SlotsSee(slots, View(store, table, command), store, table, command)
  {
  }

  /** The argument of `renderPage`: the view, with `getSlot` resolving slot
      ids against the registered handlers for that view. */
  datatype RenderArgs = RenderArgs(view: View, slots: map<string, SlotHandler>) {
    function GetSlot(id: string): (render: Value -> Value) {
      CreateSlotRenderer(slots, view, id)
    }
  }
}
