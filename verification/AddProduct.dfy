/** The add-product screen: text fields for name, quantity and cost, pickers for the
    category and the inventory location, and a submit handler that checks every field. */
module AddProduct {
  import opened Ui
  import opened JsText

  const ProductAdded: string := "Product added successfully!"
  const FillOutAllFields: string := "Please fill out all fields."

  /** The guard of `handleAddProduct`: every field a non-empty string; quantity and cost are
      not checked to be numbers. */
  predicate AddFormComplete(name: string, category: string, quantity: string, cost: string, inventoryLocation: string): (ok: bool)
    ensures ok <==> "" !in {name, category, quantity, cost, inventoryLocation}
  {
    Truthy(name) && Truthy(category) && Truthy(quantity) && Truthy(cost) && Truthy(inventoryLocation)
  }

  lemma CategoryValuesDistinct()
    ensures forall i, j :: 0 <= i < j < |Categories| ==> Categories[i].value != Categories[j].value
    ensures forall i, j :: 0 <= i < j < |InventoryLocations| ==> InventoryLocations[i].value != InventoryLocations[j].value
  {
  }

  /** Non-numeric quantity and cost pass the guard. */
  lemma NumbersNotChecked()
    ensures AddFormComplete("Widget", "category1", "many", "free", "location1")
  {
  }

  const Categories: seq<PickerItem> := [
    PickerItem("Category 1", "category1"), PickerItem("Category 2", "category2"), PickerItem("Category 3", "category3")
  ]
  const InventoryLocations: seq<PickerItem> := [
    PickerItem("Location 1", "location1"), PickerItem("Location 2", "location2"), PickerItem("Location 3", "location3")
  ]

  /** The entries the picker lists when opened for `modalType`: a placeholder holding `''`,
      then the categories or the locations. */
  function PickerEntries(modalType: string): (r: seq<PickerItem>)
    ensures |r| >= 1 && r[0].value == ""
    ensures modalType == "category" ==> r[1..] == Categories
    ensures modalType == "location" ==> r[1..] == InventoryLocations
    ensures modalType != "category" && modalType != "location" ==> |r| == 1
    ensures forall i :: 1 <= i < |r| ==> r[i].value != ""
  {
    [PickerItem("Select " + (if modalType == "category" then "Category" else "Location"), "")]
      + (if modalType == "category" then Categories else [])
      + (if modalType == "location" then InventoryLocations else [])
  }

  /** Picking any listed entry other than the placeholder makes its button show that
      entry's label. */
  lemma PickedEntryCaptioned(modalType: string, i: nat, placeholder: string)
    requires modalType == "category" || modalType == "location"
    requires 1 <= i < |PickerEntries(modalType)|
    ensures var items := if modalType == "category" then Categories else InventoryLocations;
            var picked := PickerEntries(modalType)[i];
            Caption(items, picked.value, placeholder) == Some(picked.labelText)
  {
    var items := if modalType == "category" then Categories else InventoryLocations;
    var picked := PickerEntries(modalType)[i];
    assert picked == items[i - 1];
    assert forall j :: 0 <= j < |items| && j != i - 1 ==> items[j].value != picked.value;
  }

  class Screen {
    var name: string
    var category: string
    var quantity: string
    var cost: string
    var inventoryLocation: string
    var snackbarVisible: bool
    var snackbarMessage: string
    var snackbarColor: string
    var modalVisible: bool
    var modalType: string
    /** Scheduled `setTimeout` callbacks, oldest first (all share one delay). */
    var timers: seq<SnackbarTimer>
    /** The navigation calls made so far. */
    var navigation: seq<NavAction>

    constructor ()
      ensures name == "" && category == "" && quantity == "" && cost == "" && inventoryLocation == ""
      ensures !snackbarVisible && snackbarMessage == "" && snackbarColor == ""
      ensures !modalVisible && modalType == "" && timers == [] && navigation == []
    {
      name, category, quantity, cost, inventoryLocation := "", "", "", "", "";
      snackbarVisible, snackbarMessage, snackbarColor := false, "", "";
      modalVisible, modalType := false, "";
      timers, navigation := [], [];
    }

    function Complete(): bool
      reads this
    {
      AddFormComplete(name, category, quantity, cost, inventoryLocation)
    }

    /** `handleAddProduct`: the snackbar shows in both branches; only success schedules the
        return to the previous screen. */
    method HandleAddProduct()
      modifies this`snackbarMessage, this`snackbarColor, this`snackbarVisible, this`timers
      ensures snackbarVisible
      ensures Complete() ==> snackbarMessage == ProductAdded && snackbarColor == Green && timers == old(timers) + [HideAndGoBack]
      ensures !Complete() ==> snackbarMessage == FillOutAllFields && snackbarColor == Red && timers == old(timers) + [Hide]
    {
      if Truthy(name) && Truthy(category) && Truthy(quantity) && Truthy(cost) && Truthy(inventoryLocation) {
        snackbarMessage := ProductAdded;
        snackbarColor := Green;
        snackbarVisible := true;
        timers := timers + [HideAndGoBack];
      } else {
        snackbarMessage := FillOutAllFields;
        snackbarColor := Red;
        snackbarVisible := true;
        timers := timers + [Hide];
      }
    }

    /** The oldest scheduled callback runs: it hides the snackbar and, after a successful
        add, goes back. */
    method RunTimer()
      requires timers != []
      modifies this`snackbarVisible, this`timers, this`navigation
      ensures !snackbarVisible && timers == old(timers)[1..]
      ensures navigation == if old(timers)[0] == HideAndGoBack then old(navigation) + [GoBack] else old(navigation)
    {
      var next := timers[0];
      timers := timers[1..];
      snackbarVisible := false;
      if next == HideAndGoBack {
        navigation := navigation + [GoBack];
      }
    }

    method DismissSnackbar()
      modifies this`snackbarVisible
      ensures !snackbarVisible
    {
      snackbarVisible := false;
    }

    method HandleOpenModal(kind: string)
      modifies this`modalType, this`modalVisible
      ensures modalType == kind && modalVisible
    {
      modalType := kind;
      modalVisible := true;
    }

    method CloseModal()
      modifies this`modalVisible
      ensures !modalVisible
    {
      modalVisible := false;
    }

    /** A picker choice: the category or the location, as the picker was opened for; the
        placeholder entry's value `''` clears the field, after which the form is incomplete. */
    method HandleSelectValue(value: string)
      modifies this`category, this`inventoryLocation, this`modalVisible
      ensures !modalVisible
      ensures category == if modalType == "category" then value else old(category)
      ensures inventoryLocation == if modalType == "location" then value else old(inventoryLocation)
      ensures value == "" && (modalType == "category" || modalType == "location") ==> !Complete()
    {
      if modalType == "category" {
        category := value;
      } else if modalType == "location" {
        inventoryLocation := value;
      }
      modalVisible := false;
    }

    /** The category button's caption. */
    function CategoryCaption(): (r: Option<string>)
      reads this
      ensures category == "" ==> r == Some("Select Category")
      ensures forall item :: item in Categories && item.value == category ==> r == Some(item.labelText)
      ensures category != "" && (forall item :: item in Categories ==> item.value != category) ==> r == None
    {
      CategoryValuesDistinct();
      Caption(Categories, category, "Select Category")
    }

    /** The location button's caption. */
    function LocationCaption(): (r: Option<string>)
      reads this
      ensures inventoryLocation == "" ==> r == Some("Select Inventory Location")
      ensures forall item :: item in InventoryLocations && item.value == inventoryLocation ==> r == Some(item.labelText)
      ensures inventoryLocation != "" && (forall item :: item in InventoryLocations ==> item.value != inventoryLocation) ==> r == None
    {
      CategoryValuesDistinct();
      Caption(InventoryLocations, inventoryLocation, "Select Inventory Location")
    }

    method SetName(text: string)
      modifies this`name
      ensures name == text
    {
      name := text;
    }

    method SetQuantity(text: string)
      modifies this`quantity
      ensures quantity == text
    {
      quantity := text;
    }

    method SetCost(text: string)
      modifies this`cost
      ensures cost == text
    {
      cost := text;
    }
  }

  /** A screen whose form was filled through the text fields and both pickers. */
  method FilledScreen() returns (screen: Screen)
    ensures fresh(screen)
    ensures screen.Complete() && screen.timers == [] && screen.navigation == []
  {
    assert "location"[0] != "category"[0];
    screen := new Screen();
    screen.SetName("Widget");
    screen.SetQuantity("3");
    screen.SetCost("9.50");
    screen.HandleOpenModal("category");
    screen.HandleSelectValue("category2");
    screen.HandleOpenModal("location");
    screen.HandleSelectValue("location1");
  }

  /** Submitting a filled form: the screen goes back after the timer, unless the category
      was first reset to the placeholder. */
  method AddScenario(resetCategory: bool) returns (trail: seq<NavAction>, message: string)
    ensures !resetCategory ==> message == ProductAdded && trail == [GoBack]
    ensures resetCategory ==> message == FillOutAllFields && trail == []
  {
    var screen := FilledScreen();
    if resetCategory {
      screen.HandleOpenModal("category");
      screen.HandleSelectValue("");
    }
    screen.HandleAddProduct();
    message := screen.snackbarMessage;
    screen.RunTimer();
    trail := screen.navigation;
  }
}
