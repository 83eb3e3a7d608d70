/**
  The relational store as the handlers see it: the Token, User, UserRole and
  ZipCode tables, the configuration fixed at start-up, and the opaque
  primitives (token digest, password hashing and verification).
*/
module Store {
  import opened Wrappers

  /** Token `Type` codes: 1 marks a refresh token, 0 an access token. */
  const RefreshType: int := 1
  const AccessType: int := 0

  /** A Token row: stored digest, Type, DeviceInfo, DateEnd (seconds) and FK_User. */
  datatype TokenRow = TokenRow(digest: string, kind: int, deviceInfo: string, dateEnd: int, owner: string)

  /** A User row; `password` is the stored password hash and `role` is FK_UserRole. */
  datatype UserRow = UserRow(id: string, username: string, name: string, surname: string, password: string, role: string)

  /** A UserRole row with its numeric PermissionLevel. */
  datatype RoleRow = RoleRow(id: string, level: int)

  /** A ZipCode row. */
  datatype ZipCodeRow = ZipCodeRow(id: string, number: int, city: string)

  /** A snapshot of the four tables, in table order. */
  datatype Tables = Tables(
    tokens: seq<TokenRow>,
    users: seq<UserRow>,
    roles: seq<RoleRow>,
    zipCodes: seq<ZipCodeRow>)

  /**
    Process-wide configuration and the opaque primitives:
    `digest` is the SHA-256 of a token secret (nothing is assumed of it, not even injectivity);
    `hash(password, pepper, salt)` is the Argon2id password hash;
    `verify(password, storedHash, pepper)` is the hash check, which may fail with an error text;
    `defaultTokenType` and `defaultDeviceInfo` are the schema defaults of the Token
    columns that a login insert leaves out.
  */
  datatype Config = Config(
    digest: string -> string,
    pepper: string,
    hash: (string, string, string) -> string,
    verify: (string, string, string) -> Result<bool, string>,
    defaultTokenType: int,
    defaultDeviceInfo: string)

  /** The database the handlers share, one sequence of rows per table. */
  class Database {
    var tokens: seq<TokenRow>
    var users: seq<UserRow>
    var roles: seq<RoleRow>
    var zipCodes: seq<ZipCodeRow>

    constructor (tables: Tables)
      ensures Snapshot() == tables
    {
      tokens := tables.tokens;
      users := tables.users;
      roles := tables.roles;
      zipCodes := tables.zipCodes;
    }

    function Snapshot(): (t: Tables)
      reads this
    {
      Tables(tokens, users, roles, zipCodes)
    }
  }
}
