/** The document database as three collections, each a map from document id to record. */
module Store {
  import OrderModel
  import MenuItemModel
  import UserModel

  class Database {
    var orders: map<string, OrderModel.Order>
    var menuItems: map<string, MenuItemModel.MenuItem>
    var users: map<string, UserModel.User>

    constructor ()
      ensures orders == map[] && menuItems == map[] && users == map[]
    {
      orders, menuItems, users := map[], map[], map[];
    }
  }
}
