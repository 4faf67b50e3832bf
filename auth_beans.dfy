/** The reply record of the authentication endpoints (AuthBean.java) and the
    statuses it carries. */
module AuthBeans {
  import opened Common
  import opened UserTypes

  /** The statuses the beans are built with. The enum's own declaration is
      not part of this model; these are the constants the core uses. */
  datatype AuthStatus = InvalidKeyFormat | ValidKeyFormat | InvalidUser | ValidUser | InvalidTotp | Success

  /** An `AuthBean`: the entity id, the status, the role and the key (null
      when the constructor takes none). There are no setters. */
  datatype AuthBean = AuthBean(id: int, status: AuthStatus, userType: UserType, key: Option<string>)

  /** `new AuthBean(id)`: the field initialisers give INVALID_USER and NORMAL. */
  function NewWithId(id: int): (b: AuthBean)
    ensures b.id == id && b.status == InvalidUser && b.userType == Normal && b.key == None
  {
    AuthBean(id, InvalidUser, Normal, None)
  }

  /** `new AuthBean(id, status)`, chaining to `AuthBean(id)`. */
  function NewWithStatus(id: int, status: AuthStatus): (b: AuthBean)
    ensures b.id == id && b.status == status && b.userType == Normal && b.key == None
  {
    NewWithId(id).(status := status)
  }

  /** `new AuthBean(status)`: no id, so -1. */
  function NewOfStatus(status: AuthStatus): (b: AuthBean)
    ensures b.id == -1 && b.status == status && b.userType == Normal && b.key == None
  {
    NewWithStatus(-1, status)
  }

  /** `new AuthBean(id, key, status)`. */
  function NewWithKey(id: int, key: string, status: AuthStatus): (b: AuthBean)
    ensures b.id == id && b.status == status && b.userType == Normal && b.key == Some(key)
  {
    NewWithStatus(id, status).(key := Some(key))
  }

  /** `new AuthBean(key, status)`: no id, so -1. */
  function NewOfKey(key: string, status: AuthStatus): (b: AuthBean)
    ensures b.id == -1 && b.status == status && b.userType == Normal && b.key == Some(key)
  {
    NewWithKey(-1, key, status)
  }

  /** `new AuthBean(id, key, userType)`: the one constructor that sets a
      role, and it always means SUCCESS. */
  function NewSuccess(id: int, key: string, userType: UserType): (b: AuthBean)
    ensures b.id == id && b.status == Success && b.userType == userType && b.key == Some(key)
  {
    NewWithStatus(id, Success).(key := Some(key), userType := userType)
  }

  /** `AuthBean.invalidKeyFormat`. */
  function InvalidKeyFormatBean(key: string): (b: AuthBean)
    ensures b == AuthBean(-1, InvalidKeyFormat, Normal, Some(key))
  {
    NewOfKey(key, InvalidKeyFormat)
  }

  /** `AuthBean.validKeyFormat`. */
  function ValidKeyFormatBean(key: string): (b: AuthBean)
    ensures b == AuthBean(-1, ValidKeyFormat, Normal, Some(key))
  {
    NewOfKey(key, ValidKeyFormat)
  }

  /** `AuthBean.invalidUser`. */
  function InvalidUserBean(key: string): (b: AuthBean)
    ensures b == AuthBean(-1, InvalidUser, Normal, Some(key))
  {
    NewOfKey(key, InvalidUser)
  }

  /** Only the success constructor gives a bean a role other than NORMAL,
      and a success bean is told apart from every other by its status. */
  lemma OnlySuccessCarriesRole(id: int, key: string, status: AuthStatus, userType: UserType)
    ensures NewWithId(id).userType == Normal
    ensures NewWithStatus(id, status).userType == Normal
    ensures NewOfStatus(status).userType == Normal
    ensures NewWithKey(id, key, status).userType == Normal
    ensures NewOfKey(key, status).userType == Normal
    ensures NewSuccess(id, key, userType).userType == userType
    ensures status != Success ==> NewWithKey(id, key, status) != NewSuccess(id, key, userType)
  {
  }
}
