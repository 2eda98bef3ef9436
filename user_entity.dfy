/**
 * The user shapes shared by the user module and the event payloads
 * (template/src/Modules/User/entity/user.entity.ts).
 */
module UserEntity {
  import opened Wrappers

  /** `ICreateUser`: the registration input. */
  datatype CreateUser = CreateUser(
    firstname: string,
    lastname: string,
    email: string,
    password: string,
    phone: Option<string>)

  /** `IUser`: the input fields plus an id and two timestamps (milliseconds). */
  datatype User = User(
    id: string,
    firstname: string,
    lastname: string,
    email: string,
    password: string,
    phone: Option<string>,
    createdAt: int,
    updatedAt: int)
  {
    /** The registration fields this user carries. */
    function Input(): CreateUser {
      CreateUser(firstname, lastname, email, password, phone)
    }
  }
}
