/** The restaurant's static reference data and the record types shared by
    every screen: tables, menu categories (whose order drives sorting and
    reporting), menu items, and the order line that snapshots a menu item. */
module Catalog {
  import opened Collections

  datatype TableStatus = Available | Occupied | Billing

  datatype Table = Table(id: nat, status: TableStatus)

  datatype MenuCategory = MenuCategory(id: string, name: string)

  type MenuItemId = nat

  /** Prices are exact decimals; the source's binary floating point is not modelled. */
  datatype MenuItem = MenuItem(id: MenuItemId, name: string, price: real, categoryId: string, image: string, hint: string)

  /** Status of an order line: `new` until the kitchen has its ticket, then `sent`. */
  datatype LineStatus = New | Sent

  /** Identity of one order line; the source uses a random string, the model a number. */
  type LineId = nat

  /** One line of a table's order: a snapshot of the menu item taken when
      the line was created (a later catalog change does not reach it), the
      line's own id, its quantity and its status. */
  datatype OrderItem = OrderItem(item: MenuItem, orderItemId: LineId, quantity: int, status: LineStatus)

  /** What a line costs: unit price times quantity. */
  function LineAmount(x: OrderItem): real
  {
    x.item.price * x.quantity as real
  }

  const Placeholder: string := "https://placehold.co/300x200.png"

  const Tables: seq<Table> := [
    Table(1, Occupied), Table(2, Available), Table(3, Available), Table(4, Billing),
    Table(5, Available), Table(6, Occupied), Table(7, Available), Table(8, Available),
    Table(9, Billing), Table(10, Available), Table(11, Occupied), Table(12, Available)
  ]

  const MenuCategories: seq<MenuCategory> := [
    MenuCategory("appetizers", "Appetizers"),
    MenuCategory("main-courses", "Main Courses"),
    MenuCategory("desserts", "Desserts"),
    MenuCategory("beverages", "Beverages")
  ]

  const MenuItems: seq<MenuItem> := [
    MenuItem(1, "Bruschetta", 8.5, "appetizers", Placeholder, "bruschetta food"),
    MenuItem(2, "Caprese Salad", 10.0, "appetizers", Placeholder, "caprese salad"),
    MenuItem(3, "Garlic Bread", 6.0, "appetizers", Placeholder, "garlic bread"),
    MenuItem(4, "Spaghetti Carbonara", 15.0, "main-courses", Placeholder, "spaghetti carbonara"),
    MenuItem(5, "Margherita Pizza", 14.0, "main-courses", Placeholder, "pizza food"),
    MenuItem(6, "Grilled Salmon", 22.0, "main-courses", Placeholder, "grilled salmon"),
    MenuItem(7, "Chicken Parmesan", 18.0, "main-courses", Placeholder, "chicken parmesan"),
    MenuItem(8, "Lasagna", 16.5, "main-courses", Placeholder, "lasagna food"),
    MenuItem(9, "Tiramisu", 9.0, "desserts", Placeholder, "tiramisu dessert"),
    MenuItem(10, "Cheesecake", 8.0, "desserts", Placeholder, "cheesecake dessert"),
    MenuItem(11, "Chocolate Lava Cake", 9.5, "desserts", Placeholder, "chocolate cake"),
    MenuItem(12, "Mineral Water", 3.0, "beverages", Placeholder, "water bottle"),
    MenuItem(13, "Orange Juice", 4.5, "beverages", Placeholder, "orange juice"),
    MenuItem(14, "Espresso", 3.5, "beverages", Placeholder, "espresso coffee"),
    MenuItem(15, "House Wine (Red)", 7.0, "beverages", Placeholder, "red wine")
  ]

  /** The category ids in display order (`menuCategories.map(c => c.id)`). */
  function CategoryIds(): (r: seq<string>)
    ensures |r| == |MenuCategories|
    ensures forall i :: 0 <= i < |r| ==> r[i] == MenuCategories[i].id
  {
    seq(|MenuCategories|, i requires 0 <= i < |MenuCategories| => MenuCategories[i].id)
  }

  /** JavaScript's `indexOf`: the first position of `x` in `s`, or -1. */
  function IndexOf(s: seq<string>, x: string): (r: int)
    ensures -1 <= r < |s|
    ensures r == -1 <==> x !in s
    ensures 0 <= r ==> s[r] == x && forall j :: 0 <= j < r ==> s[j] != x
  {
    if s == [] then -1
    else if s[0] == x then 0
    else
      var k := IndexOf(s[1..], x);
      if k == -1 then -1 else k + 1
  }

  /** `categories.find(c => c.id === id)`: the first category with that id. */
  function FindCategory(categories: seq<MenuCategory>, id: string): (r: Option<MenuCategory>)
    ensures r.Some? ==> r.value in categories && r.value.id == id
    ensures r.None? <==> forall c :: c in categories ==> c.id != id
  {
    if categories == [] then None
    else if categories[0].id == id then Some(categories[0])
    else FindCategory(categories[1..], id)
  }

  /** The category ids and the category names are pairwise distinct. */
  predicate DistinctCategories(categories: seq<MenuCategory>)
  {
    forall i, j :: 0 <= i < j < |categories| ==>
      categories[i].id != categories[j].id && categories[i].name != categories[j].name
  }

  lemma CategoryOrder()
    ensures CategoryIds() == ["appetizers", "main-courses", "desserts", "beverages"]
    ensures DistinctCategories(MenuCategories)
  {
  }

  /** In a catalog with distinct ids, looking a category's id up finds that category. */
  lemma {:induction false} FindCategoryOwnId(categories: seq<MenuCategory>, i: nat)
    requires DistinctCategories(categories)
    requires i < |categories|
    ensures FindCategory(categories, categories[i].id) == Some(categories[i])
  {
    if i > 0 {
      FindCategoryOwnId(categories[1..], i - 1);
    }
  }

  lemma MenuItemsWellFormed()
    ensures forall i :: 0 <= i < |MenuItems| ==> MenuItems[i].id == i + 1
    ensures |MenuItems| == 15
    ensures forall i :: 0 <= i < |MenuItems| ==> MenuItems[i].categoryId in CategoryIds()
    ensures forall i :: 0 <= i < |MenuItems| ==> MenuItems[i].price > 0.0
  {
    CategoryOrder();
  }

  lemma TablesWellFormed()
    ensures |Tables| == 12
    ensures forall i :: 0 <= i < |Tables| ==> Tables[i].id == i + 1
  {
  }
}
