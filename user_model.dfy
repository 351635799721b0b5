/** The user record as the controllers and the middleware use it. The user
    schema itself (its validators and password hashing) is not part of this model. */
module UserModel {
  import opened Http

  datatype User = User(name: string, email: string, password: string, role: string, avatar: Option<string>)

  const CustomerRole: string := "customer"
  const StaffRole: string := "staff"
  const AdminRole: string := "admin"

  /** The closed role set that `updateUserRole` checks against. */
  const Roles: seq<string> := [CustomerRole, StaffRole, AdminRole]
}
