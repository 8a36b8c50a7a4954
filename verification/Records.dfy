/** The records of registry.json. */
module Records {

  /** A status as stored; the file may hold a text that is none of the known ones. */
  datatype Status =
    | Approved | Pending | Blocked | Failed | Rejected | Registered | Revoked
    | Unknown(text: string)

  datatype License = License(
    key: string,
    product: string,
    productName: string,
    regDate: string,
    nextDueDate: string,
    status: Status,
    serverId: string,
    account: string)
  {
    /** Whether verify.php honours the subscription. */
    predicate Active() {
      match status
      case Revoked | Blocked | Rejected | Failed => false
      case _ => true
    }
  }

  datatype Server = Server(
    serverId: string,
    key: string,
    product: string,
    status: Status,
    firstSeen: string,
    lastSeen: string,
    note: string)

  datatype Account = Account(
    thumbprint: string,
    publicKey: string,
    serverId: string,
    contact: string,
    status: Status,
    createdAt: string)

  datatype Registry = Registry(
    licenses: seq<License>,
    servers: seq<Server>,
    accounts: seq<Account>)

  const EMPTY_REGISTRY := Registry([], [], [])
}
