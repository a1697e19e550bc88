/** The mock category list (packages/core/shared/data/mock/categories.ts). */
module MockCategories {
  import opened Common
  import opened JsonValue
  import opened Catalog
  import opened ApiSchema

  const MockCategories: seq<Category> := [
    Category(IntId(1), "Skincare", Some("lucide:sparkles"), "skincare", Some(42)),
    Category(IntId(2), "Hair Care", Some("lucide:scissors"), "hair-care", Some(28)),
    Category(IntId(3), "Vitamins", Some("lucide:pill"), "vitamins", Some(35)),
    Category(IntId(4), "Baby Care", Some("lucide:baby"), "baby-care", Some(19)),
    Category(IntId(5), "Makeup", Some("lucide:palette"), "makeup", Some(56)),
    Category(IntId(6), "Body Care", Some("lucide:heart-pulse"), "body-care", Some(31)),
    Category(IntId(7), "Sun Protection", Some("lucide:sun"), "sun-protection", Some(22)),
    Category(IntId(8), "Oral Care", Some("lucide:smile"), "oral-care", Some(15))
  ]

  /** Eight categories, with the ids 1 to 8 in order (so pairwise distinct). */
  lemma EightCategoriesNumbered()
    ensures |MockCategories| == 8
    ensures forall i :: 0 <= i < |MockCategories| ==> MockCategories[i].id == IntId(i + 1)
    ensures forall i, j :: 0 <= i < j < |MockCategories| ==> MockCategories[i].id != MockCategories[j].id
  {
  }

  /** Every entry passes the category schema, and so does the wrapped list. */
  lemma MockCategoriesValid()
    ensures forall i :: 0 <= i < |MockCategories| ==> ValidCategory(CategoryToJson(MockCategories[i]))
    ensures ValidCategoryList(CategoryListToJson(MockCategories))
  {
    forall i | 0 <= i < |MockCategories|
      ensures ValidCategory(CategoryToJson(MockCategories[i]))
    {
      CategoryEncodingValid(MockCategories[i]);
    }
    CategoryListEncodingValid(MockCategories);
  }

  /** The slugs are pairwise distinct. */
  lemma SlugsDistinct()
    ensures forall i, j :: 0 <= i < j < |MockCategories| ==> MockCategories[i].slug != MockCategories[j].slug
  {
    forall i, j | 0 <= i < j < |MockCategories|
      ensures MockCategories[i].slug != MockCategories[j].slug
    {
      var a, b := MockCategories[i].slug, MockCategories[j].slug;
      assert a[0] != b[0] || |a| != |b| || a[1] != b[1] || a[5] != b[5];
    }
  }
}
