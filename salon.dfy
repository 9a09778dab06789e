/** The records the salon app works with (types/salon.ts), with money in whole forints and times in milliseconds. */
module Salon {
  import opened Common

  datatype ServiceCategory = ServiceCategory(id: string, name: string, icon: string)

  /** A bookable service; `duration` is in minutes. */
  datatype Service = Service(
    id: string, name: string, category: ServiceCategory,
    price: int, duration: int, description: Option<string>)

  /** One cart line: a service and how many times it is bought. */
  datatype CartItem = CartItem(service: Service, quantity: int)

  datatype Customer = Customer(name: string, phone: Option<string>, email: Option<string>)

  datatype PaymentMethod = Cash | Card | Transfer

  /** A recorded sale: a snapshot of the cart, never changed after it is created. */
  datatype Payment = Payment(
    id: string, customer: Customer, items: seq<CartItem>, total: int,
    paymentMethod: PaymentMethod, timestamp: int, receiptNumber: string,
    employeeId: string, employeeName: string)

  datatype Client = Client(
    id: string, name: string, phone: string, email: Option<string>,
    birthDate: Option<int>, notes: Option<string>, createdAt: int,
    lastVisit: Option<int>, totalSpent: int, visitCount: int)

  datatype InventoryCategory = Wax | Oil | Cream | Tool | Other

  /** A stock item (the `Inventory` record of the source). */
  datatype InventoryItem = InventoryItem(
    id: string, name: string, category: InventoryCategory, quantity: int,
    minQuantity: int, unit: string, price: int, supplier: Option<string>,
    lastRestocked: Option<int>, barcode: Option<string>)

  datatype Role = Admin | Employee

  /**
   * An account. `password` is optional because a record built without one
   * (as the admin screen does) simply lacks the field.
   */
  datatype User = User(id: string, name: string, email: string, role: Role, password: Option<string>)

  datatype AuthState = AuthState(user: Option<User>, isAuthenticated: bool)

  /** One field of a `Partial<...>` update: left alone, or given a new value. */
  datatype Field<T> = Keep | Set(value: T) {
    function Or(current: T): T {
      match this
      case Keep => current
      case Set(v) => v
    }
  }

  /** `user?.role === 'admin'`. */
  predicate IsAdmin(user: Option<User>) {
    user.Some? && user.value.role == Admin
  }
}
