/** Records of the static catalogue, reduced to the fields the core logic reads. */
module Catalog {
  import opened Options

  /** The four menus `getMenuItemsForRestaurant` can return; their literal contents are not modelled. */
  datatype MenuKind = PizzaMenu | BurgerMenu | AsianMenu | DefaultMenu

  /** A restaurant record. `details` stands for the display-only fields (rating, time, image, ...). */
  datatype Restaurant = Restaurant(
    id: string,
    name: string,
    cuisine: string,
    details: map<string, string>,
    menuItems: Option<MenuKind>)

  /** A menu item as offered on a restaurant's menu; it carries no quantity. */
  datatype MenuItem = MenuItem(id: string, name: string, description: string, price: real, image: string)

  /** The first restaurant with the given id (`list.find(r => r.id === id)`). */
  function FindById(rs: seq<Restaurant>, id: string): (r: Option<Restaurant>)
    ensures r.Some? ==> r.value in rs && r.value.id == id
    ensures r.None? <==> forall x :: x in rs ==> x.id != id
  {
    if rs == [] then None
    else if rs[0].id == id then Some(rs[0])
    else FindById(rs[1..], id)
  }
}
