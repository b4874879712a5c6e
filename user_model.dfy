/** The user record, as far as the validators query it: its id, e-mail,
    role and whether the e-mail address has been verified. */
module UserModel {

  datatype User = User(id: string, name: string, email: string, role: string, isEmailVerified: bool)

  /** `User.findOne({ email })` finds a record. */
  predicate EmailTaken(users: seq<User>, email: string) {
    exists i :: 0 <= i < |users| && users[i].email == email
  }
}
