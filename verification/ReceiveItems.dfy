/** The receive-items screen: a button that retrieves a transfer record, the record's
    details, and an employee-ID field with a Complete button shown once a record is held. */
module ReceiveItems {
  import opened Ui
  import opened JsText

  const TransactionCompleted: string := "Transaction completed successfully!"
  const FillOutEmployeeId: string := "Please fill out the Employee ID."

  datatype TransferRecord = TransferRecord(
    id: string,
    from: string,
    to: string,
    productsTransferred: seq<string>,
    deliveredByEmployeeId: string,
    vehicleNumber: string)

  /** The records retrieval draws from. */
  const TransferRecords: seq<TransferRecord> := [
    TransferRecord("1", "Warehouse A", "Inventory 1", ["Product A", "Product B"], "123456", "XYZ1234")
  ]

  /** `records[0]`, `undefined` for an empty list. */
  function FirstRecord(records: seq<TransferRecord>): (r: Option<TransferRecord>)
    ensures r.Some? <==> records != []
    ensures r.Some? ==> r.value == records[0]
  {
    if records == [] then None else Some(records[0])
  }

  class Screen {
    var receivedByEmployeeId: string
    var transferRecord: Option<TransferRecord>
    var snackbarVisible: bool
    var snackbarMessage: string
    var snackbarColor: string
    /** Scheduled `setTimeout` callbacks, oldest first (all share one delay). */
    var timers: seq<SnackbarTimer>
    /** The navigation calls made so far. */
    var navigation: seq<NavAction>

    constructor ()
      ensures receivedByEmployeeId == "" && transferRecord == None
      ensures !snackbarVisible && snackbarMessage == "" && snackbarColor == ""
      ensures timers == [] && navigation == []
    {
      receivedByEmployeeId, transferRecord := "", None;
      snackbarVisible, snackbarMessage, snackbarColor := false, "", "";
      timers, navigation := [], [];
    }

    /** The details, the employee-ID field and the Complete button render only while a
        record is held. */
    function ShowsCompletionControls(): (shown: bool)
      reads this
      ensures shown <==> transferRecord != None
    {
      transferRecord.Some?
    }

    /** `handleRetrieveTransferDetails`: holds the first record. */
    method HandleRetrieveTransferDetails()
      modifies this`transferRecord
      ensures transferRecord == Some(TransferRecords[0])
      ensures ShowsCompletionControls()
    {
      transferRecord := FirstRecord(TransferRecords);
    }

    /** `handleCompleteTransaction`: succeeds iff an employee ID was entered; the snackbar
        shows either way and only success schedules the return. */
    method HandleCompleteTransaction()
      requires ShowsCompletionControls()
      modifies this`snackbarMessage, this`snackbarColor, this`snackbarVisible, this`timers
      ensures snackbarVisible
      ensures Truthy(receivedByEmployeeId) ==>
        snackbarMessage == TransactionCompleted && snackbarColor == Green && timers == old(timers) + [HideAndGoBack]
      ensures !Truthy(receivedByEmployeeId) ==>
        snackbarMessage == FillOutEmployeeId && snackbarColor == Red && timers == old(timers) + [Hide]
    {
      if Truthy(receivedByEmployeeId) {
        snackbarMessage := TransactionCompleted;
        snackbarColor := Green;
        snackbarVisible := true;
        timers := timers + [HideAndGoBack];
      } else {
        snackbarMessage := FillOutEmployeeId;
        snackbarColor := Red;
        snackbarVisible := true;
        timers := timers + [Hide];
      }
    }

    /** The oldest scheduled callback runs: it hides the snackbar and, after a completion,
        goes back. */
    method RunTimer()
      requires timers != []
      modifies this`snackbarVisible, this`timers, this`navigation
      ensures !snackbarVisible && timers == old(timers)[1..]
      ensures navigation == if old(timers)[0] == HideAndGoBack then old(navigation) + [GoBack] else old(navigation)
    {
      var next := timers[0];
      timers := timers[1..];
      snackbarVisible := false;
      if next == HideAndGoBack {
        navigation := navigation + [GoBack];
      }
    }

    method DismissSnackbar()
      modifies this`snackbarVisible
      ensures !snackbarVisible
    {
      snackbarVisible := false;
    }

    /** Typing in the employee-ID field, which exists only while a record is held. */
    method SetReceivedByEmployeeId(text: string)
      requires ShowsCompletionControls()
      modifies this`receivedByEmployeeId
      ensures receivedByEmployeeId == text
    {
      receivedByEmployeeId := text;
    }
  }

  /** Retrieving, entering an ID and completing: the screen goes back after the timer; with
      no ID it stays. */
  method ReceiveScenario(employeeId: string) returns (trail: seq<NavAction>, message: string)
    ensures employeeId != "" ==> message == TransactionCompleted && trail == [GoBack]
    ensures employeeId == "" ==> message == FillOutEmployeeId && trail == []
  {
    var screen := new Screen();
    screen.HandleRetrieveTransferDetails();
    screen.SetReceivedByEmployeeId(employeeId);
    screen.HandleCompleteTransaction();
    message := screen.snackbarMessage;
    screen.RunTimer();
    trail := screen.navigation;
  }
}
