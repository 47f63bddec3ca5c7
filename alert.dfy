/** The global alert store: one alert at a time, shown and hidden by
    overwriting its fields. */
module Alert {

  /** The `onConfirm` callback, identified rather than executed; `NoOp` is
      the empty callback `() => {}`. */
  datatype Callback = NoOp | Handler(id: nat)

  /** The four fields of the store. */
  datatype AlertState = AlertState(visible: bool, title: string, message: string, onConfirm: Callback)

  /** The state the store is created with. */
  const Initial := AlertState(false, "", "", NoOp)

  /** `showAlert`: make the given alert the visible one. */
  function Shown(s: AlertState, title: string, message: string, onConfirm: Callback): AlertState {
    AlertState(true, title, message, onConfirm)
  }

  /** `hideAlert`: only `visible` is written. */
  function Hidden(s: AlertState): AlertState {
    s.(visible := false)
  }

  /** Showing an alert leaves no trace of whatever was there before: there is no queue. */
  lemma ShowReplaces(s: AlertState, t: AlertState, title: string, message: string, onConfirm: Callback)
    ensures Shown(s, title, message, onConfirm) == Shown(t, title, message, onConfirm)
    ensures Shown(s, title, message, onConfirm).visible
    ensures Shown(s, title, message, onConfirm).title == title
    ensures Shown(s, title, message, onConfirm).message == message
    ensures Shown(s, title, message, onConfirm).onConfirm == onConfirm
  {
  }

  /** Hiding keeps the title, message and callback of the last alert. */
  lemma HideKeepsContent(s: AlertState)
    ensures !Hidden(s).visible
    ensures Hidden(s).title == s.title && Hidden(s).message == s.message
    ensures Hidden(s).onConfirm == s.onConfirm
  {
  }

  /** Hiding twice is hiding once, and hiding a hidden alert changes nothing. */
  lemma HideIdempotent(s: AlertState)
    ensures Hidden(Hidden(s)) == Hidden(s)
    ensures !s.visible ==> Hidden(s) == s
  {
  }

  /** A shown-then-hidden alert is the hidden form of exactly what was shown. */
  lemma ShowThenHide(s: AlertState, title: string, message: string, onConfirm: Callback)
    ensures Hidden(Shown(s, title, message, onConfirm)) == AlertState(false, title, message, onConfirm)
  {
  }

  class AlertStore {
    var visible: bool
    var title: string
    var message: string
    var onConfirm: Callback

    function State(): AlertState
      reads this
    {
      AlertState(visible, title, message, onConfirm)
    }

    constructor()
      ensures State() == Initial
    {
      visible := false;
      title := "";
      message := "";
      onConfirm := NoOp;
    }

    method ShowAlert(newTitle: string, newMessage: string, newOnConfirm: Callback)
      modifies this
      ensures State() == Shown(old(State()), newTitle, newMessage, newOnConfirm)
      ensures visible && title == newTitle && message == newMessage && onConfirm == newOnConfirm
    {
      visible, title, message, onConfirm := true, newTitle, newMessage, newOnConfirm;
    }

    method HideAlert()
      modifies this
      ensures State() == Hidden(old(State()))
      ensures !visible && title == old(title) && message == old(message) && onConfirm == old(onConfirm)
    {
      visible := false;
    }
  }
}
