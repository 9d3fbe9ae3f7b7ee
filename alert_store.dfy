/** The global alert and loading flags (src/store/alertStore.ts). */
module AlertStore {
  import opened Common

  datatype AlertType = Info | Success | Error | Warning

  const DefaultDuration := 3000

  /** The store's fields, as one value. */
  datatype State = State(visible: bool, alertType: AlertType, message: string, duration: int, loading: bool)

  class AlertStore {
    var visible: bool
    var alertType: AlertType
    var message: string
    var duration: int
    var loading: bool

    function Snapshot(): State
      reads this
    {
      State(visible, alertType, message, duration, loading)
    }

    constructor ()
      ensures Snapshot() == State(false, Info, "", DefaultDuration, false)
    {
      visible, alertType, message, duration, loading := false, Info, "", DefaultDuration, false;
    }

    /** `showAlert(type, message, duration = 3000)`; None is an omitted
        duration. Loading is left alone. */
    method ShowAlert(alertType: AlertType, message: string, duration: Option<int>)
      modifies this
      ensures Snapshot() == State(true, alertType, message, duration.GetOr(DefaultDuration), old(loading))
    {
      this.visible, this.alertType, this.message := true, alertType, message;
      this.duration := duration.GetOr(DefaultDuration);
    }

    /** Only `visible` changes: the last type, message and duration stay. */
    method HideAlert()
      modifies this
      ensures Snapshot() == old(Snapshot()).(visible := false)
    {
      visible := false;
    }

    /** Only `loading` changes. */
    method SetLoading(loading: bool)
      modifies this
      ensures Snapshot() == old(Snapshot()).(loading := loading)
    {
      this.loading := loading;
    }
  }
}
