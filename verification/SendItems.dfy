/** The send-items screen: pickers for the source warehouse, the destination inventory and
    the products, three text fields, and a submit handler that checks every field. */
module SendItems {
  import opened Ui
  import opened JsText

  const ItemsSent: string := "Items sent successfully!"
  const FillOutAllFields: string := "Please fill out all fields."

  /** `selectedProducts`: the initial empty array, or the single string value the picker
      stored in it. */
  datatype Products = ProductList(items: seq<string>) | PickedValue(value: string) {
    /** `selectedProducts.length`: elements of the array, characters of the string. */
    function Length(): nat {
      match this
      case ProductList(items) => |items|
      case PickedValue(value) => |value|
    }
  }

  /** The guard of `handleSendItems`: every field truthy (`selectedProducts.length` non-zero). */
  predicate SendFormComplete(fromWarehouse: string, toInventory: string, selectedProducts: Products,
                             deliveredByEmployeeId: string, receivedByEmployeeId: string, vehicleNumber: string): (ok: bool)
    ensures ok <==> "" !in {fromWarehouse, toInventory, deliveredByEmployeeId, receivedByEmployeeId, vehicleNumber}
                    && selectedProducts != ProductList([]) && selectedProducts != PickedValue("")
  {
    && Truthy(fromWarehouse) && Truthy(toInventory) && selectedProducts.Length() != 0
    && Truthy(deliveredByEmployeeId) && Truthy(receivedByEmployeeId) && Truthy(vehicleNumber)
  }

  const Warehouses: seq<PickerItem> := [PickerItem("Warehouse A", "warehouseA"), PickerItem("Warehouse B", "warehouseB")]
  const Inventories: seq<PickerItem> := [PickerItem("Inventory 1", "inventory1"), PickerItem("Inventory 2", "inventory2")]

  lemma PickerValuesDistinct()
    ensures forall i, j :: 0 <= i < j < |Warehouses| ==> Warehouses[i].value != Warehouses[j].value
    ensures forall i, j :: 0 <= i < j < |Inventories| ==> Inventories[i].value != Inventories[j].value
  {
  }

  /** As written: choosing a product stores its value string, whose length is then shown as
      the number of products selected. */
  lemma PickedProductCountsCharacters()
    ensures PickedValue("productA").Length() == 8
  {
  }

  /** Corrected: the products picker keeps a list holding the chosen product, or none for
      the placeholder. */
  function IntendedSelection(value: string): (r: Products)
    ensures r.ProductList?
    ensures value == "" ==> r.Length() == 0
    ensures value != "" ==> r.Length() == 1 && r.items[0] == value
  {
    if Truthy(value) then ProductList([value]) else ProductList([])
  }

  /** Corrected: the guard sees a product exactly when one was chosen, as it does as written. */
  lemma IntendedSelectionKeepsGuard(value: string)
    ensures (IntendedSelection(value).Length() != 0) == (PickedValue(value).Length() != 0)
  {
  }

  class Screen {
    var fromWarehouse: string
    var toInventory: string
    var selectedProducts: Products
    var deliveredByEmployeeId: string
    var receivedByEmployeeId: string
    var vehicleNumber: string
    var snackbarVisible: bool
    var snackbarMessage: string
    var snackbarColor: string
    var modalVisible: bool
    var modalType: string
    /** Scheduled `setTimeout` callbacks, oldest first (all share one delay). */
    var timers: seq<SnackbarTimer>
    /** The navigation calls made so far. */
    var navigation: seq<NavAction>

    constructor ()
      ensures fromWarehouse == "" && toInventory == "" && selectedProducts == ProductList([])
      ensures deliveredByEmployeeId == "" && receivedByEmployeeId == "" && vehicleNumber == ""
      ensures !snackbarVisible && snackbarMessage == "" && snackbarColor == ""
      ensures !modalVisible && modalType == "" && timers == [] && navigation == []
    {
      fromWarehouse, toInventory, selectedProducts := "", "", ProductList([]);
      deliveredByEmployeeId, receivedByEmployeeId, vehicleNumber := "", "", "";
      snackbarVisible, snackbarMessage, snackbarColor := false, "", "";
      modalVisible, modalType := false, "";
      timers, navigation := [], [];
    }

    function Complete(): bool
      reads this
    {
      SendFormComplete(fromWarehouse, toInventory, selectedProducts, deliveredByEmployeeId, receivedByEmployeeId, vehicleNumber)
    }

    /** `handleSendItems`: the snackbar shows in both branches; only success schedules the
        return to the previous screen. */
    method HandleSendItems()
      modifies this`snackbarMessage, this`snackbarColor, this`snackbarVisible, this`timers
      ensures snackbarVisible
      ensures Complete() ==> snackbarMessage == ItemsSent && snackbarColor == Green && timers == old(timers) + [HideAndGoBack]
      ensures !Complete() ==> snackbarMessage == FillOutAllFields && snackbarColor == Red && timers == old(timers) + [Hide]
    {
      if Truthy(fromWarehouse) && Truthy(toInventory) && selectedProducts.Length() != 0
         && Truthy(deliveredByEmployeeId) && Truthy(receivedByEmployeeId) && Truthy(vehicleNumber)
      {
        snackbarMessage := ItemsSent;
        snackbarColor := Green;
        snackbarVisible := true;
        timers := timers + [HideAndGoBack];
      } else {
        snackbarMessage := FillOutAllFields;
        snackbarColor := Red;
        snackbarVisible := true;
        timers := timers + [Hide];
      }
    }

    /** The oldest scheduled callback runs: it hides the snackbar and, after a successful
        send, goes back. */
    method RunTimer()
      requires timers != []
      modifies this`snackbarVisible, this`timers, this`navigation
      ensures !snackbarVisible && timers == old(timers)[1..]
      ensures navigation == if old(timers)[0] == HideAndGoBack then old(navigation) + [GoBack] else old(navigation)
    {
      var next := timers[0];
      timers := timers[1..];
      snackbarVisible := false;
      if next == HideAndGoBack {
        navigation := navigation + [GoBack];
      }
    }

    method DismissSnackbar()
      modifies this`snackbarVisible
      ensures !snackbarVisible
    {
      snackbarVisible := false;
    }

    method HandleOpenModal(kind: string)
      modifies this`modalType, this`modalVisible
      ensures modalType == kind && modalVisible
    {
      modalType := kind;
      modalVisible := true;
    }

    method CloseModal()
      modifies this`modalVisible
      ensures !modalVisible
    {
      modalVisible := false;
    }

    /** A picker choice: stored in the field the picker was opened for, then the picker closes. */
    method HandleSelectValue(value: string)
      modifies this`fromWarehouse, this`toInventory, this`selectedProducts, this`modalVisible
      ensures !modalVisible
      ensures fromWarehouse == if modalType == "warehouse" then value else old(fromWarehouse)
      ensures toInventory == if modalType == "inventory" then value else old(toInventory)
      ensures selectedProducts == if modalType == "products" then PickedValue(value) else old(selectedProducts)
    {
      if modalType == "warehouse" {
        fromWarehouse := value;
      } else if modalType == "inventory" {
        toInventory := value;
      } else if modalType == "products" {
        selectedProducts := PickedValue(value);
      }
      modalVisible := false;
    }

    method SetDeliveredByEmployeeId(text: string)
      modifies this`deliveredByEmployeeId
      ensures deliveredByEmployeeId == text
    {
      deliveredByEmployeeId := text;
    }

    method SetReceivedByEmployeeId(text: string)
      modifies this`receivedByEmployeeId
      ensures receivedByEmployeeId == text
    {
      receivedByEmployeeId := text;
    }

    method SetVehicleNumber(text: string)
      modifies this`vehicleNumber
      ensures vehicleNumber == text
    {
      vehicleNumber := text;
    }

    /** Corrected: the number of products chosen, with a picked value counted as one
        product (none for the placeholder). */
    function IntendedProductCount(): (n: nat)
      reads this
      ensures selectedProducts.PickedValue? ==> (n == 1 <==> selectedProducts.value != "") && n <= 1
      ensures selectedProducts.ProductList? ==> n == |selectedProducts.items|
      ensures (n == 0) == (ProductCount() == 0)
    {
      match selectedProducts
      case ProductList(items) => |items|
      case PickedValue(value) => IntendedSelection(value).Length()
    }

    /** The From Warehouse button's caption. */
    function WarehouseCaption(): (r: Option<string>)
      reads this
      ensures fromWarehouse == "" ==> r == Some("Select From Warehouse")
      ensures forall item :: item in Warehouses && item.value == fromWarehouse ==> r == Some(item.labelText)
      ensures fromWarehouse != "" && (forall item :: item in Warehouses ==> item.value != fromWarehouse) ==> r == None
    {
      PickerValuesDistinct();
      Caption(Warehouses, fromWarehouse, "Select From Warehouse")
    }

    /** The To Inventory button's caption. */
    function InventoryCaption(): (r: Option<string>)
      reads this
      ensures toInventory == "" ==> r == Some("Select To Inventory")
      ensures forall item :: item in Inventories && item.value == toInventory ==> r == Some(item.labelText)
      ensures toInventory != "" && (forall item :: item in Inventories ==> item.value != toInventory) ==> r == None
    {
      PickerValuesDistinct();
      Caption(Inventories, toInventory, "Select To Inventory")
    }

    /** The number shown as "N Product(s) Selected" (0 shows the placeholder). */
    function ProductCount(): (n: nat)
      reads this
      ensures selectedProducts.ProductList? ==> n == |selectedProducts.items|
      ensures selectedProducts.PickedValue? ==> n == |selectedProducts.value|
    {
      selectedProducts.Length()
    }
  }

  /** A screen whose form was filled through the pickers and the text fields. */
  method FilledScreen(vehicle: string) returns (screen: Screen)
    ensures fresh(screen)
    ensures screen.Complete() <==> vehicle != ""
    ensures screen.ProductCount() == 8 && screen.timers == [] && screen.navigation == []
  {
    screen := new Screen();
    screen.HandleOpenModal("warehouse");
    screen.HandleSelectValue("warehouseA");
    assert "inventory"[0] != "warehouse"[0] && "products"[0] != "warehouse"[0];
    screen.HandleOpenModal("inventory");
    screen.HandleSelectValue("inventory1");
    screen.HandleOpenModal("products");
    screen.HandleSelectValue("productA");
    screen.SetDeliveredByEmployeeId("123456");
    screen.SetReceivedByEmployeeId("654321");
    screen.SetVehicleNumber(vehicle);
  }

  /** Sending a filled form: the screen goes back once the snackbar's timer runs; an empty
      vehicle number keeps it on the screen. */
  method SendScenario(vehicle: string) returns (trail: seq<NavAction>, message: string)
    ensures vehicle != "" ==> message == ItemsSent && trail == [GoBack]
    ensures vehicle == "" ==> message == FillOutAllFields && trail == []
  {
    var screen := FilledScreen(vehicle);
    screen.HandleSendItems();
    message := screen.snackbarMessage;
    screen.RunTimer();
    trail := screen.navigation;
  }
}
