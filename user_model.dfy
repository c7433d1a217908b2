/** The user record the resolvers read and write. */
module UserModel {
  import opened Common

  const UserRole: string := "user"
  const AdminRole: string := "admin"

  /** What a visitor supplies when registering (GraphQL RegisterInput). */
  datatype RegisterInput = RegisterInput(name: string, email: string, password: string, phone: string)

  /** What a visitor supplies when logging in (GraphQL LoginInput). */
  datatype LoginInput = LoginInput(email: string, password: string)

  /** A stored account; `password` holds the hashed credential. */
  datatype User = User(name: string, email: string, password: string, phone: string, role: string, createdAt: Time)

  /** The account registration creates: the input fields, the hashed password, the plain role. */
  function NewUser(input: RegisterInput, hashed: string, now: Time): (u: User)
    ensures u.name == input.name && u.email == input.email && u.phone == input.phone
    ensures u.password == hashed
    ensures u.role == UserRole && u.role != AdminRole
    ensures u.createdAt == now
  {
    User(input.name, input.email, hashed, input.phone, UserRole, now)
  }

  /** Some account is registered under the email. */
  function EmailTaken(users: map<Id, User>, email: string): (taken: bool)
    ensures taken <==> email in (set id | id in users :: users[id].email)
  {
    exists id :: id in users && users[id].email == email
  }

  /** At most one account per email. */
  ghost predicate UniqueEmails(users: map<Id, User>) {
    forall i, j :: i in users && j in users && users[i].email == users[j].email ==> i == j
  }
}
