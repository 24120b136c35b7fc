/** webapp/src/reducers.js: the plugin's redux state, a confirmation modal and
    the window width, each with its own reducer. */
module Reducers {

  datatype Option<T> = None | Some(value: T)

  /** A callback field of the modal state: missing (undefined), null, or a
      function, named by an identifier. */
  datatype Callback = Missing | Null | Function(id: nat)

  datatype ModalState = ModalState(show: bool, onConfirm: Callback, onCancel: Callback)

  datatype Action =
    | ShowConfirmationModal(onConfirm: Callback, onCancel: Callback)
    | HideConfirmationModal
    | WindowResized(windowWidth: int)
    | Other(actionType: string)

  /** `{show: false}`: the callbacks are not there at all. */
  const InitialModal: ModalState := ModalState(false, Missing, Missing)
  const InitialWidth: int := 0

  /** The confirmationModal reducer; `None` is the undefined state redux starts from. */
  function ConfirmationModal(state: Option<ModalState>, action: Action): (r: ModalState)
    ensures action.ShowConfirmationModal? ==> r == ModalState(true, action.onConfirm, action.onCancel)
    ensures action.HideConfirmationModal? ==> r == ModalState(false, Null, Null)
    ensures !action.ShowConfirmationModal? && !action.HideConfirmationModal? ==>
              r == if state.Some? then state.value else InitialModal
  {
    var current := if state.Some? then state.value else InitialModal;
    match action
    case ShowConfirmationModal(onConfirm, onCancel) => ModalState(true, onConfirm, onCancel)
    case HideConfirmationModal => ModalState(false, Null, Null)
    case _ => current
  }

  /** The windowWidth reducer. */
  function WindowWidth(state: Option<int>, action: Action): (r: int)
    ensures action.WindowResized? ==> r == action.windowWidth
    ensures !action.WindowResized? ==> r == if state.Some? then state.value else InitialWidth
  {
    var current := if state.Some? then state.value else InitialWidth;
    match action
    case WindowResized(width) => width
    case _ => current
  }

  /** The plugin's slice of the store, as combineReducers builds it. */
  datatype PluginState = PluginState(confirmationModal: ModalState, windowWidth: int)

  /** combineReducers({confirmationModal, windowWidth}): each slice is given
      only its own part of the state. */
  function Reduce(state: Option<PluginState>, action: Action): (r: PluginState)
    ensures r.confirmationModal
         == ConfirmationModal(if state.Some? then Some(state.value.confirmationModal) else None, action)
    ensures r.windowWidth == WindowWidth(if state.Some? then Some(state.value.windowWidth) else None, action)
  {
    if state.None? then PluginState(ConfirmationModal(None, action), WindowWidth(None, action))
    else PluginState(ConfirmationModal(Some(state.value.confirmationModal), action),
                     WindowWidth(Some(state.value.windowWidth), action))
  }

  /** The state redux builds from its initialising action, whose type is none of the plugin's. */
  lemma InitialState(actionType: string)
    ensures Reduce(None, Other(actionType)) == PluginState(ModalState(false, Missing, Missing), 0)
  {
  }

  /** An action the plugin does not handle leaves its state as it was. */
  lemma OtherActionsIgnored(state: PluginState, actionType: string)
    ensures Reduce(Some(state), Other(actionType)) == state
  {
  }

  /** Resizing leaves the modal alone, and the modal actions leave the width alone. */
  lemma SlicesIndependent(state: PluginState, action: Action)
    ensures action.WindowResized? ==> Reduce(Some(state), action).confirmationModal == state.confirmationModal
    ensures !action.WindowResized? ==> Reduce(Some(state), action).windowWidth == state.windowWidth
  {
  }

  /** Hiding always ends with a closed modal and no callbacks, whatever was shown before. */
  lemma HideAfterShow(state: PluginState, onConfirm: Callback, onCancel: Callback)
    ensures var shown := Reduce(Some(state), ShowConfirmationModal(onConfirm, onCancel));
            && shown.confirmationModal.show
            && Reduce(Some(shown), HideConfirmationModal)
               == PluginState(ModalState(false, Null, Null), state.windowWidth)
  {
  }

  /** The last resize decides the width. */
  lemma LastResizeWins(state: PluginState, first: int, second: int)
    ensures Reduce(Some(Reduce(Some(state), WindowResized(first))), WindowResized(second))
         == state.(windowWidth := second)
  {
  }
}
