/** The static fallback catalog shown when the live list is empty or cannot be
    loaded. Its records use the table shape (`model_name`, `image_url`,
    `technology_type`, ...). The creation and update timestamps, which are
    stamped from the clock, and the free-text descriptions, which no page of the
    model reads, are not part of the records. */
module MockCatalog {
  import opened Wrappers
  import opened Strings
  import opened Products

  /** A table-shaped fallback record. */
  function MockEntry(id: string, modelName: string, price: real, technology: string,
                     capacity: string, warranty: string,
                     specifications: map<string, string>, imageUrl: string): (p: Product)
    ensures p.id == id && p.price == Some(price) && p.isActive == Some(true)
    ensures p.galleryImages == Some([]) && p.modelName == Some(modelName)
    ensures p.name.None? && p.imageUrl.None? && p.technologyType.None? && p.tableImageUrl == Some(imageUrl)
  {
    Product(id, None, None, Some(price), None, Some(capacity), Some(warranty), None, None, None, None,
            None, None, Some(modelName), Some(technology), Some(specifications), Some(imageUrl), Some([]),
            Some(true))
  }

  /** The catalog's sample photographs, all served from one image host with the same query. */
  function UnsplashImage(photo: string): string {
    "https://images.unsplash.com/photo-" + photo + "?auto=format&fit=crop&q=80&w=800"
  }

  /** Entry `mock-1` of the fallback catalog. */
  function Mock1(): (p: Product)
    ensures p.id == "mock-1" && p.price == Some(12500.0)
    ensures p.isActive == Some(true) && p.galleryImages == Some([])
    ensures p.name.None? && p.imageUrl.None? && p.technologyType.None?
  {
    MockEntry("mock-1", "Ponsri Aqua Grand+", 12500.0, "RO + UV + UF + TDS Control", "12L",
              "1 Year Comprehensive",
              map["Purification Capacity" := "15 L/hr", "Storage Capacity" := "12 Liters",
                  "Filter Changes" := "Every 12 Months", "Power Consumption" := "60W"],
              UnsplashImage("1629854496460-a29241b77f98"))
  }

  /** Entry `mock-2` of the fallback catalog. */
  function Mock2(): (p: Product)
    ensures p.id == "mock-2" && p.price == Some(9800.0)
    ensures p.isActive == Some(true) && p.galleryImages == Some([])
    ensures p.name.None? && p.imageUrl.None? && p.technologyType.None?
  {
    MockEntry("mock-2", "Ponsri Pearl Purifier", 9800.0, "RO + UV", "10L", "1 Year Warranty",
              map["Purification Capacity" := "12 L/hr", "Storage Capacity" := "10 Liters",
                  "Filter Changes" := "Every 12 Months", "Power Consumption" := "45W"],
              UnsplashImage("1544551763-46a013bb70d5"))
  }

  /** Entry `mock-3` of the fallback catalog. */
  function Mock3(): (p: Product)
    ensures p.id == "mock-3" && p.price == Some(14500.0)
    ensures p.isActive == Some(true) && p.galleryImages == Some([])
    ensures p.name.None? && p.imageUrl.None? && p.technologyType.None?
  {
    MockEntry("mock-3", "Ponsri Copper Elite", 14500.0, "RO + UV + UF + Active Copper", "15L",
              "2 Years Comprehensive",
              map["Purification Capacity" := "20 L/hr", "Storage Capacity" := "15 Liters",
                  "Filter Changes" := "Every 15 Months", "Power Consumption" := "60W"],
              UnsplashImage("1582046808791-f9babaaacff6"))
  }

  /** The three sample products, in catalog order. */
  function MockProducts(): (r: seq<Product>)
    ensures |r| == 3
    ensures r[0].id == "mock-1" && r[1].id == "mock-2" && r[2].id == "mock-3"
    ensures forall i, j :: 0 <= i < j < |r| ==> r[i].id != r[j].id
    ensures forall i :: 0 <= i < |r| ==> r[i].isActive == Some(true) && r[i].galleryImages == Some([])
    ensures forall i :: 0 <= i < |r| ==> r[i].price.Some? && r[i].price.value > 0.0
    ensures r[0].price == Some(12500.0) && r[1].price == Some(9800.0) && r[2].price == Some(14500.0)
    ensures forall i :: 0 <= i < |r| ==> r[i].name.None? && r[i].imageUrl.None? && r[i].technologyType.None?
  {
    var r := [Mock1(), Mock2(), Mock3()];
    assert "mock-1"[5] != "mock-2"[5] && "mock-1"[5] != "mock-3"[5] && "mock-2"[5] != "mock-3"[5];
    r
  }

  /** The fallback records carry only table-shape names, so the REST pages that
      read `name` and `imageUrl` show them without a title and with "No Image". */
  lemma MockProductsLackRestFields()
    ensures forall p :: p in MockProducts() ==> p.name.None? && ImageSource(p).None?
  {
  }

  /** A mock id is found in the fallback catalog. */
  lemma FindKnownMock(id: string)
    requires id == "mock-1" || id == "mock-2" || id == "mock-3"
    ensures FindById(MockProducts(), id).Some?
  {
    var m := MockProducts();
    var k := if id == "mock-1" then 0 else if id == "mock-2" then 1 else 2;
    assert m[k].id == id;
    FindByIdPresent(m, id, k);
  }

  /** Any other id is not. */
  lemma FindUnknownMock(id: string)
    requires id != "mock-1" && id != "mock-2" && id != "mock-3"
    ensures FindById(MockProducts(), id).None?
  {
    var m := MockProducts();
    forall k | 0 <= k < |m| ensures m[k].id != id {
      if k == 0 { assert m[0].id == "mock-1"; }
      else if k == 1 { assert m[1].id == "mock-2"; }
      else { assert m[2].id == "mock-3"; }
    }
    FindByIdAbsent(m, id);
  }

  /** Looking a mock up finds a record exactly for the three mock ids. */
  lemma FindMockById(id: string)
    ensures FindById(MockProducts(), id).Some? <==> id == "mock-1" || id == "mock-2" || id == "mock-3"
  {
    if id == "mock-1" || id == "mock-2" || id == "mock-3" {
      FindKnownMock(id);
    } else {
      FindUnknownMock(id);
    }
  }
}
