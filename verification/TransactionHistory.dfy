/** The transaction-history screen: a list of transfer records narrowed by optional,
    case-insensitive substring filters and a sent/received mode, location pickers that
    fill the filters, and a dialog that completes a received transfer. */
module TransactionHistory {
  import opened Ui
  import opened JsText

  datatype Transaction = Transaction(
    id: string,
    from: string,
    to: string,
    productsTransferred: seq<string>,
    deliveredByEmployeeId: string,
    receivedByEmployeeId: Option<string>,  // `null` until the transfer is received
    vehicleNumber: string,
    status: string,
    timestamp: string,
    sentByMe: bool,
    receivedByMe: bool)

  /** The records the screen lists. */
  const DummyHistory: seq<Transaction> := [
    Transaction("1", "Warehouse A", "Inventory 1", ["Product A", "Product B"], "123456", Some("654321"),
                "XYZ1234", "Completed", "2024-08-14T10:00:00Z", true, false),
    Transaction("2", "Warehouse B", "Inventory 2", ["Product C"], "234567", None,
                "ABC5678", "Pending", "2024-08-14T12:00:00Z", false, true)
  ]

  const Warehouses: seq<PickerItem> := [PickerItem("Warehouse A", "warehouseA"), PickerItem("Warehouse B", "warehouseB")]
  const Inventories: seq<PickerItem> := [PickerItem("Inventory 1", "inventory1"), PickerItem("Inventory 2", "inventory2")]

  /** `dummyData.warehouses.concat(dummyData.inventories)`: the entries both location pickers offer. */
  const Locations: seq<PickerItem> := Warehouses + Inventories

  // ---------------------------------------------------------------------------
  // The filter
  // ---------------------------------------------------------------------------

  /** The four filter state variables: `filterFrom`, `filterTo`, `filterStatus`, `filterSentOrReceived`. */
  datatype Criteria = Criteria(from: string, to: string, status: string, sentOrReceived: string)

  /** The initial state: every filter empty. */
  const NoFilter: Criteria := Criteria("", "", "", "")

  /** `filter ? field.toLowerCase().includes(filter.toLowerCase()) : true`. */
  predicate FieldMatches(field: string, filter: string): (m: bool)
    ensures filter == "" ==> m
    ensures |filter| > |field| ==> !m
    ensures ToLower(filter) == ToLower(field) ==> m
  {
    Truthy(filter) ==> IncludesIgnoringCase(field, filter)
  }

  /** The conjunction the screen applies to each record. */
  predicate Keeps(c: Criteria, t: Transaction): (k: bool)
    ensures c == NoFilter ==> k
    ensures k && c.sentOrReceived == "sent" ==> t.sentByMe
    ensures k && c.sentOrReceived == "received" ==> t.receivedByMe
    ensures k && c.from != "" ==> IncludesIgnoringCase(t.from, c.from)
    ensures k && c.to != "" ==> IncludesIgnoringCase(t.to, c.to)
    ensures k && c.status != "" ==> IncludesIgnoringCase(t.status, c.status)
  {
    && FieldMatches(t.from, c.from)
    && FieldMatches(t.to, c.to)
    && FieldMatches(t.status, c.status)
    && (c.sentOrReceived == "sent" ==> t.sentByMe)
    && (c.sentOrReceived == "received" ==> t.receivedByMe)
  }

  /** `history.filter(transaction => Keeps(c, transaction))`. */
  function Filter(history: seq<Transaction>, c: Criteria): (r: seq<Transaction>)
    ensures |r| <= |history|
    ensures forall t :: t in r ==> t in history && Keeps(c, t)
  {
    if history == [] then []
    else (if Keeps(c, history[0]) then [history[0]] else []) + Filter(history[1..], c)
  }

  /** `r` is `s` with some elements dropped and the rest kept in order. */
  ghost predicate SubsequenceOf<T>(r: seq<T>, s: seq<T>)
    decreases |s|
  {
    r == [] || (s != [] && ((r[0] == s[0] && SubsequenceOf(r[1..], s[1..])) || SubsequenceOf(r, s[1..])))
  }

  lemma {:induction false} SubsequenceShorter<T>(r: seq<T>, s: seq<T>)
    requires SubsequenceOf(r, s)
    ensures |r| <= |s|
    decreases |s|
  {
    if r != [] {
      if r[0] == s[0] && SubsequenceOf(r[1..], s[1..]) {
        SubsequenceShorter(r[1..], s[1..]);
      } else {
        SubsequenceShorter(r, s[1..]);
      }
    }
  }

  lemma SubsequenceOfCons<T>(r: seq<T>, x: T, s: seq<T>)
    requires SubsequenceOf(r, s)
    ensures SubsequenceOf(r, [x] + s)
  {
    assert ([x] + s)[1..] == s;
  }

  /** With every filter empty the screen lists every record, in the original order. */
  lemma {:induction false} FilterWithoutCriteria(history: seq<Transaction>)
    ensures Filter(history, NoFilter) == history
  {
    if history != [] {
      FilterWithoutCriteria(history[1..]);
      assert [history[0]] + history[1..] == history;
    }
  }

  /** The filtered list is an order-preserving subsequence of the history. */
  lemma {:induction false} FilterIsSubsequence(history: seq<Transaction>, c: Criteria)
    ensures SubsequenceOf(Filter(history, c), history)
  {
    if history != [] {
      var rest := Filter(history[1..], c);
      FilterIsSubsequence(history[1..], c);
      if Keeps(c, history[0]) {
        assert Filter(history, c) == [history[0]] + rest;
        assert ([history[0]] + rest)[1..] == rest;
      } else {
        assert Filter(history, c) == rest;
        SubsequenceOfCons(rest, history[0], history[1..]);
        assert [history[0]] + history[1..] == history;
      }
    }
  }

  /** A record is listed exactly as often as it occurs in the history when it passes every
      filter, and never otherwise. */
  lemma {:induction false} FilterCounts(history: seq<Transaction>, c: Criteria, t: Transaction)
    ensures multiset(Filter(history, c))[t] == if Keeps(c, t) then multiset(history)[t] else 0
  {
    if history != [] {
      FilterCounts(history[1..], c, t);
      assert history == [history[0]] + history[1..];
    }
  }

  /** A record is listed iff it is in the history and passes every filter. */
  lemma FilterMembership(history: seq<Transaction>, c: Criteria, t: Transaction)
    ensures t in Filter(history, c) <==> t in history && Keeps(c, t)
  {
    FilterCounts(history, c, t);
  }

  /** Criteria that keep fewer records give a subsequence of the listing. */
  lemma {:induction false} StricterCriteriaNarrow(history: seq<Transaction>, loose: Criteria, strict: Criteria)
    requires forall t :: Keeps(strict, t) ==> Keeps(loose, t)
    ensures SubsequenceOf(Filter(history, strict), Filter(history, loose))
  {
    if history != [] {
      var x := history[0];
      var s, l := Filter(history[1..], strict), Filter(history[1..], loose);
      StricterCriteriaNarrow(history[1..], loose, strict);
      if Keeps(strict, x) {
        assert Filter(history, strict) == [x] + s;
        assert Filter(history, loose) == [x] + l;
        assert ([x] + s)[1..] == s && ([x] + l)[1..] == l;
      } else if Keeps(loose, x) {
        assert Filter(history, strict) == s;
        assert Filter(history, loose) == [x] + l;
        SubsequenceOfCons(s, x, l);
      } else {
        assert Filter(history, strict) == s && Filter(history, loose) == l;
      }
    }
  }

  /** `strict` is `loose` with some empty filters filled in, or an inactive mode turned on. */
  predicate Tightens(loose: Criteria, strict: Criteria) {
    && (strict.from == loose.from || loose.from == "")
    && (strict.to == loose.to || loose.to == "")
    && (strict.status == loose.status || loose.status == "")
    && (strict.sentOrReceived == loose.sentOrReceived || (loose.sentOrReceived != "sent" && loose.sentOrReceived != "received"))
  }

  /** Making any filter non-empty (or turning the mode on) never enlarges the listing. */
  lemma FillingFiltersNarrows(history: seq<Transaction>, loose: Criteria, strict: Criteria)
    requires Tightens(loose, strict)
    ensures SubsequenceOf(Filter(history, strict), Filter(history, loose))
    ensures |Filter(history, strict)| <= |Filter(history, loose)|
  {
    StricterCriteriaNarrow(history, loose, strict);
    SubsequenceShorter(Filter(history, strict), Filter(history, loose));
  }

  // ---------------------------------------------------------------------------
  // The sent/received toggle and the Complete button
  // ---------------------------------------------------------------------------

  /** `filterSentOrReceived === 'sent' ? 'received' : 'sent'`. */
  function NextMode(mode: string): (r: string)
    ensures r == "sent" || r == "received"
    ensures r == "received" <==> mode == "sent"
  {
    if mode == "sent" then "received" else "sent"
  }

  /** Once pressed, the toggle alternates between the two modes. */
  lemma ToggleAlternates(mode: string)
    ensures NextMode(NextMode(NextMode(mode))) == NextMode(mode)
    ensures NextMode(mode) != ""
  {
  }

  /** The toggle's caption. */
  function ModeButtonText(mode: string): (r: string)
    ensures mode == "sent" ==> r == "Filter Sent By Me"
    ensures mode != "sent" ==> r == "Filter Received By Me"
  {
    if mode == "sent" then "Filter Sent By Me" else "Filter Received By Me"
  }

  /** `transaction.receivedByMe && !transaction.receivedByEmployeeId`. */
  function ShowsCompleteButton(t: Transaction): (r: bool)
    ensures r <==> t.receivedByMe && (t.receivedByEmployeeId == None || t.receivedByEmployeeId == Some(""))
  {
    t.receivedByMe && !(t.receivedByEmployeeId.Some? && Truthy(t.receivedByEmployeeId.value))
  }

  /** Of the listed records only the pending one addressed to this user offers Complete. */
  lemma CompleteButtonOnDummyData()
    ensures !ShowsCompleteButton(DummyHistory[0]) && ShowsCompleteButton(DummyHistory[1])
  {
  }

  // ---------------------------------------------------------------------------
  // Location pickers
  // ---------------------------------------------------------------------------

  lemma LocationValuesDistinct()
    ensures forall i, j :: 0 <= i < j < |Locations| ==> Locations[i].value != Locations[j].value
  {
  }

  /** The caption of the From/To button: the picked entry's label, or the placeholder
      when the filter is empty. */
  function LocationButtonText(filter: string, placeholder: string): (r: Option<string>)
    ensures filter == "" ==> r == Some(placeholder)
    ensures forall item :: item in Locations && item.value == filter && filter != "" ==> r == Some(item.labelText)
    ensures filter != "" && (forall item :: item in Locations ==> item.value != filter) ==> r == None
  {
    LocationValuesDistinct();
    Caption(Locations, filter, placeholder)
  }

  /** The picker stores an entry's value (`warehouseA`) while the records hold labels
      (`Warehouse A`): no listed record's location includes any picker value. */
  lemma {:induction false} SpacedLabelLacksValue(labelText: string, value: string)
    requires 2 <= |value| && |labelText| == |value| + 1
    requires labelText[|value| - 1] == ' '
    requires forall i :: 0 <= i < |value| ==> value[i] != ' '
    ensures !IncludesIgnoringCase(labelText, value)
  {
    var s, sub := ToLower(labelText), ToLower(value);
    assert s[|value| - 1] == ' ';
    NotIncludedAcrossGap(s, sub, |value| - 1);
  }

  /** Every picker value is ten characters without a space; every listed location is its
      label, eleven characters with a space before the last one. */
  lemma {:induction false} DummyDataShapes(item: PickerItem, t: Transaction)
    requires item in Locations && t in DummyHistory
    ensures |item.value| == 10 && forall i :: 0 <= i < 10 ==> item.value[i] != ' '
    ensures |t.from| == 11 && t.from[9] == ' ' && |t.to| == 11 && t.to[9] == ' '
  {
    assert item == Locations[0] || item == Locations[1] || item == Locations[2] || item == Locations[3];
  }

  /** As written: picking any location in the From or To picker hides every record. */
  lemma PickedLocationHidesEveryRecord(item: PickerItem, c: Criteria)
    requires item in Locations
    requires c.from == item.value || c.to == item.value
    ensures Filter(DummyHistory, c) == []
  {
    forall t | t in DummyHistory
      ensures !Keeps(c, t)
    {
      DummyDataShapes(item, t);
      SpacedLabelLacksValue(t.from, item.value);
      SpacedLabelLacksValue(t.to, item.value);
    }
    if Filter(DummyHistory, c) != [] {
      FilterMembership(DummyHistory, c, Filter(DummyHistory, c)[0]);
    }
  }

  /** The label a picked value stands for, or the text itself when no entry holds it. */
  function LabelFor(value: string): (r: string)
    ensures forall item :: item in Locations && item.value == value ==> r == item.labelText
    ensures (forall item :: item in Locations ==> item.value != value) ==> r == value
  {
    LocationValuesDistinct();
    match FindLabel(Locations, value)
    case Some(l) => l
    case None => value
  }

  /** Corrected: the location filters compare the records with the picked entry's label. */
  function IntendedCriteria(c: Criteria): (r: Criteria)
    ensures r.status == c.status && r.sentOrReceived == c.sentOrReceived
    ensures forall item :: item in Locations && item.value == c.from ==> r.from == item.labelText
    ensures forall item :: item in Locations && item.value == c.to ==> r.to == item.labelText
    ensures (forall item :: item in Locations ==> item.value != c.from) ==> r.from == c.from
    ensures (forall item :: item in Locations ==> item.value != c.to) ==> r.to == c.to
  {
    c.(from := LabelFor(c.from), to := LabelFor(c.to))
  }

  /** Corrected: a record whose location is the picked entry's label passes that filter. */
  lemma PickedLocationKeepsItsRecords(item: PickerItem, t: Transaction, c: Criteria)
    requires item in Locations
    requires c.from == item.value && t.from == item.labelText
    ensures FieldMatches(t.from, IntendedCriteria(c).from)
  {
    IncludesEmptyAndSelf(ToLower(t.from));
  }

  lemma WarehouseBLacksWarehouseA()
    ensures !IncludesIgnoringCase("Warehouse B", "Warehouse A")
  {
    NotIncludedIgnoringCase("Warehouse B", "Warehouse A", 10);
  }

  lemma IntendedWarehouseA()
    ensures IntendedCriteria(NoFilter.(from := "warehouseA")) == NoFilter.(from := "Warehouse A")
  {
    assert Locations[0] == PickerItem("Warehouse A", "warehouseA");
    assert forall item :: item in Locations ==> item.value != "";
  }

  /** The record shipped from Warehouse A passes the corrected filter for it. */
  lemma WarehouseAKeptByLabel()
    ensures Keeps(NoFilter.(from := "Warehouse A"), DummyHistory[0])
  {
    IncludesEmptyAndSelf(ToLower("Warehouse A"));
  }

  /** The record shipped from Warehouse B does not. */
  lemma WarehouseBDroppedByLabel()
    ensures !Keeps(NoFilter.(from := "Warehouse A"), DummyHistory[1])
  {
    WarehouseBLacksWarehouseA();
  }

  /** Of two records, a filter keeping the first and dropping the second lists the first. */
  lemma FilterKeepsFirstOfTwo(first: Transaction, second: Transaction, c: Criteria)
    requires Keeps(c, first) && !Keeps(c, second)
    ensures Filter([first, second], c) == [first]
  {
    assert [first, second][1..] == [second];
    assert [second][1..] == [];
  }

  /** Corrected: picking Warehouse A lists exactly the record shipped from Warehouse A. */
  lemma PickingWarehouseAListsItsRecord()
    ensures Filter(DummyHistory, IntendedCriteria(NoFilter.(from := "warehouseA"))) == [DummyHistory[0]]
  {
    IntendedWarehouseA();
    WarehouseAKeptByLabel();
    WarehouseBDroppedByLabel();
    FilterKeepsFirstOfTwo(DummyHistory[0], DummyHistory[1], NoFilter.(from := "Warehouse A"));
    assert DummyHistory == [DummyHistory[0], DummyHistory[1]];
  }

  // ---------------------------------------------------------------------------
  // Screen state
  // ---------------------------------------------------------------------------

  class Screen {
    const history: seq<Transaction>
    var filterFrom: string
    var filterTo: string
    var filterStatus: string
    var filterSentOrReceived: string
    var employeeId: string
    var dialogVisible: bool
    var selectedTransaction: Option<Transaction>
    var modalVisible: bool
    var modalType: string
    /** The `Alert.alert` calls made so far. */
    var alerts: seq<Alert>

    /** The dialog is only ever opened for a selected record. */
    ghost predicate Valid()
      reads this
    {
      dialogVisible ==> selectedTransaction.Some?
    }

    constructor ()
      ensures Valid()
      ensures history == DummyHistory
      ensures Criteria(filterFrom, filterTo, filterStatus, filterSentOrReceived) == NoFilter
      ensures employeeId == "" && !dialogVisible && selectedTransaction == None
      ensures !modalVisible && modalType == "" && alerts == []
    {
      history := DummyHistory;
      filterFrom, filterTo, filterStatus, filterSentOrReceived := "", "", "", "";
      employeeId, dialogVisible, selectedTransaction := "", false, None;
      modalVisible, modalType := false, "";
      alerts := [];
    }

    function CurrentCriteria(): Criteria
      reads this
    {
      Criteria(filterFrom, filterTo, filterStatus, filterSentOrReceived)
    }

    /** `filteredTransactions`: the records rendered as cards. */
    function FilteredTransactions(): (r: seq<Transaction>)
      reads this
      ensures |r| <= |history|
      ensures forall t :: t in r <==> t in history && Keeps(CurrentCriteria(), t)
    {
      var c := CurrentCriteria();
      assert forall t :: t in Filter(history, c) <==> t in history && Keeps(c, t) by {
        forall t {
          FilterMembership(history, c, t);
        }
      }
      Filter(history, c)
    }

    /** The Complete button of a record: opens the dialog for it. */
    method HandleCompleteTransaction(t: Transaction)
      modifies this
      ensures Valid()
      ensures selectedTransaction == Some(t) && dialogVisible
      ensures CurrentCriteria() == old(CurrentCriteria()) && employeeId == old(employeeId)
      ensures modalVisible == old(modalVisible) && modalType == old(modalType) && alerts == old(alerts)
    {
      selectedTransaction := Some(t);
      dialogVisible := true;
    }

    /** The dialog's Confirm button: closes the dialog iff an employee ID was entered. */
    method ConfirmCompleteTransaction()
      requires Valid() && dialogVisible
      modifies this
      ensures Valid() && selectedTransaction == old(selectedTransaction) && selectedTransaction.Some?
      ensures !dialogVisible <==> Truthy(employeeId)
      ensures Truthy(employeeId) ==> alerts == old(alerts) + [Alert("Transaction Completed",
        "Transaction for " + Join(selectedTransaction.value.productsTransferred, ", ") + " completed successfully!")]
      ensures !Truthy(employeeId) ==> alerts == old(alerts) + [Alert("Error", "Please enter your Employee ID.")]
      ensures employeeId == old(employeeId)
      ensures CurrentCriteria() == old(CurrentCriteria()) && modalVisible == old(modalVisible) && modalType == old(modalType)
    {
      if Truthy(employeeId) {
        var products := Join(selectedTransaction.value.productsTransferred, ", ");
        alerts := alerts + [Alert("Transaction Completed", "Transaction for " + products + " completed successfully!")];
        dialogVisible := false;
      } else {
        alerts := alerts + [Alert("Error", "Please enter your Employee ID.")];
      }
    }

    /** The dialog's Cancel button and its dismissal. */
    method DismissDialog()
      modifies this`dialogVisible
      ensures Valid() && !dialogVisible
    {
      dialogVisible := false;
    }

    /** Typing in the dialog's employee-ID field. */
    method SetEmployeeId(text: string)
      modifies this`employeeId
      ensures employeeId == text
    {
      employeeId := text;
    }

    /** Typing in the status filter. */
    method SetFilterStatus(text: string)
      modifies this`filterStatus
      ensures filterStatus == text
    {
      filterStatus := text;
    }

    /** The From/To buttons: open the picker for that filter. */
    method HandleOpenModal(kind: string)
      modifies this`modalType, this`modalVisible
      ensures modalType == kind && modalVisible
    {
      modalType := kind;
      modalVisible := true;
    }

    /** The picker's Close button and its dismissal. */
    method CloseModal()
      modifies this`modalVisible
      ensures !modalVisible
    {
      modalVisible := false;
    }

    /** A picker choice: fills the filter the picker was opened for and closes it. */
    method HandleSelectValue(value: string)
      requires Valid()
      modifies this
      ensures Valid() && !modalVisible
      ensures filterFrom == (if modalType == "from" then value else old(filterFrom))
      ensures filterTo == (if modalType == "to" then value else old(filterTo))
      ensures filterStatus == old(filterStatus) && filterSentOrReceived == old(filterSentOrReceived)
      ensures modalType == old(modalType) && employeeId == old(employeeId) && dialogVisible == old(dialogVisible)
      ensures selectedTransaction == old(selectedTransaction) && alerts == old(alerts)
    {
      if modalType == "from" {
        filterFrom := value;
      } else if modalType == "to" {
        filterTo := value;
      }
      modalVisible := false;
    }

    /** The sent/received button. */
    method ToggleSentOrReceived()
      modifies this`filterSentOrReceived
      ensures filterSentOrReceived == NextMode(old(filterSentOrReceived))
      ensures filterSentOrReceived != ""
    {
      filterSentOrReceived := NextMode(filterSentOrReceived);
    }

    /** Corrected: the listing with the location filters compared by the picked entries' labels. */
    function IntendedFilteredTransactions(): (r: seq<Transaction>)
      reads this
      ensures forall t :: t in r <==> t in history && Keeps(IntendedCriteria(CurrentCriteria()), t)
    {
      var c := IntendedCriteria(CurrentCriteria());
      assert forall t :: t in Filter(history, c) <==> t in history && Keeps(c, t) by {
        forall t {
          FilterMembership(history, c, t);
        }
      }
      Filter(history, c)
    }

    /** The From button's caption. */
    function FromButtonText(): (r: Option<string>)
      reads this
      ensures filterFrom == "" ==> r == Some("Filter From")
      ensures forall item :: item in Locations && item.value == filterFrom && filterFrom != "" ==> r == Some(item.labelText)
      ensures filterFrom != "" && (forall item :: item in Locations ==> item.value != filterFrom) ==> r == None
    {
      LocationButtonText(filterFrom, "Filter From")
    }

    /** The To button's caption. */
    function ToButtonText(): (r: Option<string>)
      reads this
      ensures filterTo == "" ==> r == Some("Filter To")
      ensures forall item :: item in Locations && item.value == filterTo && filterTo != "" ==> r == Some(item.labelText)
      ensures filterTo != "" && (forall item :: item in Locations ==> item.value != filterTo) ==> r == None
    {
      LocationButtonText(filterTo, "Filter To")
    }
  }
}
