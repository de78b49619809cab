/** A client of the inventory service: a sequence of requests and what its contracts let the caller conclude. */
module LedgerScenarios {
  import opened Wrappers
  import opened Ledger

  method PlaceRetrieveTransfer()
  {
    var x, l1, l2 := "X", "L1", "L2";
    var server := new InventoryServer(map[]);

    var placed := server.Place(x, l1, 300.0);
    assert placed == Success(InventoryRow(x, l1, 300));
    assert |server.movements| == 1 && server.movements[0].kind == Placement;

    var retrieved := server.Retrieve(x, l1, 50.0);
    assert retrieved == Success(InventoryRow(x, l1, 250));

    var tooMuch := server.Retrieve(x, l1, 500.0);
    assert tooMuch == Failure(InsufficientQuantity);
    assert Quantity(server.stock, Slot(x, l1)) == 250 && |server.movements| == 2;

    var fraction := server.Place(x, l1, 2.5);
    assert fraction == Failure(ValidationError);

    var moved := server.Move(x, l1, l2, 100.0);
    assert moved == Success(());
    assert Quantity(server.stock, Slot(x, l1)) == 150 && Quantity(server.stock, Slot(x, l2)) == 100;
    assert server.movements[2] == Movement(Transfer, x, Some(l1), Some(l2), 100);

    var same := server.Move(x, l1, l1, 10.0);
    assert same == Failure(SameLocation) && |server.movements| == 3;
  }
}

/** Clients of the placement screen: receiving a delivery against an order. */
module PlacementScenarios {
  import opened Wrappers
  import opened ItemPlacement
  import Text

  /** Choosing an order and a sku fills in the vendor and the ordered quantity. */
  method ChooseOrderLine()
  {
    var po, sku := "PO224663", "99002B";
    assert FindPO(PurchaseOrders, po) == Some(PurchaseOrders[1]);
    assert FindLine(PurchaseOrders[1].skus, sku) == Some(PurchaseOrders[1].skus[0]);

    var screen := new PlacementScreen("2025-01-04");
    screen.SelectPO(po);
    screen.SelectSku(sku);
    assert screen.form.vendor == "PT THERMAL INDO" && screen.form.qtyPo == 500;
  }

  /** Entering the pieces of a first delivery on a line and syncing shows what is received and outstanding. */
  method ReceiveFirstDelivery(screen: PlacementScreen)
    requires screen.form.poNumber == "PO224663" && screen.form.sku == "99002B"
    requires screen.recent == [SeedRecord]
    modifies screen
  {
    screen.SetQtyPcs(Some(200));
    assert CurrentLine(screen.form) == Some(PurchaseOrders[1].skus[0]);
    assert SameLine(screen.recent, "PO224663", "99002B") == [];
    screen.Sync();
    assert screen.form.totalReceived == 200 && screen.form.qtyOutstanding == 300 && screen.form.status == Open;
  }

  /** A form that passes validation is recorded at the head of the recent placements and partly cleared. */
  method SubmitDelivery(form: PlacementForm)
    requires form.locationRack == "SA100" && form.poNumber == "PO224663" && form.sku == "99002B"
    requires form.noSuratJalan == "5002" && form.qtyPallet == 2 && form.qtyPcs == 200
  {
    assert form.noSuratJalan[0] == '5' && !Text.IsWhitespace('5');
    assert !Text.AllWhitespace(form.noSuratJalan);
    ValidIff(form);
    assert IsValid(form);
    var screen := new PlacementScreen("2025-01-04");
    screen.form := form;
    var ok := screen.Submit(2);
    assert ok && |screen.recent| == 2 && screen.recent[0].qtyPcs == 200 && screen.recent[1] == SeedRecord;
    assert screen.form.qtyPcs == 0 && screen.form.locationRack == "" && screen.form.sku == "99002B";
  }
}
