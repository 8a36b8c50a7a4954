/** From an order to the document a Proxmox host reads. */
module EndToEnd {
  import opened Wrappers
  import opened Records
  import opened Responses
  import opened KeyedLists
  import opened Keys
  import R = Registries
  import opened Services
  import L = Lifecycle
  import V = Verdicts

  /** The fields a host reads from the answer to a subscription check. */
  function AnswerRead(r: VerifyResult, md5hex: string -> string): Option<seq<Field>> {
    ReadXML(XML_HEADER + RenderFields(FieldsOf(r.response, md5hex)))
  }

  lemma AnswerFields(r: VerifyResult, md5hex: string -> string)
    ensures AnswerRead(r, md5hex).Some?
    ensures var f := AnswerRead(r, md5hex).value;
      && |f| == (if r.response.message == "" then 6 else 7)
      && f[0] == Field("status", r.response.status)
      && f[1] == Field("validdirectory", r.response.serverId)
      && f[2] == Field("productname", r.response.productName)
      && f[3] == Field("regdate", r.response.regDate)
      && f[4] == Field("nextduedate", r.response.nextDueDate)
      && (r.response.message != "" ==> f[5] == Field("message", r.response.message))
      && f[|f| - 1] == Field("md5hash", md5hex(SHARED_KEY_DATA + r.response.checkToken))
  {
    RenderedResponseIsDecodable(r.response, md5hex);
    FieldsInOrder(r.response, md5hex);
  }

  lemma FieldsInOrder(r: Response, md5hex: string -> string)
    ensures var f := FieldsOf(r, md5hex);
      && |f| == (if r.message == "" then 6 else 7)
      && f[0] == Field("status", r.status)
      && f[1] == Field("validdirectory", r.serverId)
      && f[2] == Field("productname", r.productName)
      && f[3] == Field("regdate", r.regDate)
      && f[4] == Field("nextduedate", r.nextDueDate)
      && (r.message != "" ==> f[5] == Field("message", r.message))
      && f[|f| - 1] == Field("md5hash", md5hex(SHARED_KEY_DATA + r.checkToken))
  {
  }

  /** What the message of a denied key calls its status. */
  function DenialOf(status: Status): string {
    match status
    case Revoked => "REVOKED"
    case Blocked => "BLOCKED"
    case Rejected => "REJECTED"
    case Failed => "FAILED"
    case _ => ""
  }

  /** Whatever the verdict, the answer says it, names the host that asked, and echoes its
      challenge; an active one carries no message and a denied one does. */
  lemma VerdictIsAnswered(reg: Registry, serverId: string, key: string, token: string, auto: bool,
                          now: Moment, contactWrite: bool, licenseRead: bool)
    ensures var r := Verifying(reg, serverId, key, token, auto, now, contactWrite, licenseRead).1;
      && r.response.status == (if r.active then "active" else "invalid")
      && r.response.serverId == serverId && r.response.checkToken == token
      && (r.active <==> r.response.message == "")
  {
  }

  /** A denial says under which status the key is denied, or that there is no valid
      subscription, and gives neither a name nor dates. */
  lemma DenialIsExplained(reg: Registry, serverId: string, key: string, token: string, auto: bool,
                          now: Moment, contactWrite: bool, licenseRead: bool)
    requires !Verifying(reg, serverId, key, token, auto, now, contactWrite, licenseRead).1.active
    ensures var r := Verifying(reg, serverId, key, token, auto, now, contactWrite, licenseRead).1.response;
      var found := Find(reg.licenses, R.LicenseKey, key);
      && r.productName == r.regDate == r.nextDueDate == ""
      && r.message ==
         if licenseRead && found.Some? && V.Denied(found.value.status) then "subscription " + DenialOf(found.value.status)
         else "no valid subscription"
  {
    var found := Find(reg.licenses, R.LicenseKey, key);
    assert found.Some? ==> (found.value.Active() <==> !V.Denied(found.value.status));
  }

  /** Every active answer shows the license on record for the key, whoever added it, and a
      key without a record (or whose look-up failed) under the name the key itself says,
      from today for a year. */
  lemma ActiveAnswerShows(reg: Registry, serverId: string, key: string, token: string, auto: bool,
                          now: Moment, contactWrite: bool, licenseRead: bool)
    requires Verifying(reg, serverId, key, token, auto, now, contactWrite, licenseRead).1.active
    ensures var r := Verifying(reg, serverId, key, token, auto, now, contactWrite, licenseRead).1.response;
      var found := Find(reg.licenses, R.LicenseKey, key);
      if licenseRead && found.Some? then Shows(r, serverId, found.value, token, now)
      else
        && r.status == "active" && r.serverId == serverId && r.checkToken == token
        && r.productName == Describe(key).name && r.regDate == now.today && r.nextDueDate == now.nextYear
  {
  }

  function OrElse(text: string, fallback: string): string {
    if text != "" then text else fallback
  }

  /** The fields a host reads say that its subscription is active, for itself, under the
      name and dates of the license (undated ones from today for a year), with the given
      hash of its challenge. */
  predicate ReadsActive(read: Option<seq<Field>>, serverId: string, l: License, now: Moment, hash: string) {
    && read.Some? && |read.value| >= 6
    && read.value[0] == Field("status", "active")
    && read.value[1] == Field("validdirectory", serverId)
    && read.value[2] == Field("productname", l.productName)
    && read.value[3] == Field("regdate", OrElse(l.regDate, now.today))
    && read.value[4] == Field("nextduedate", OrElse(l.nextDueDate, now.nextYear))
    && read.value[|read.value| - 1] == Field("md5hash", hash)
  }

  /** The answer shows an active subscription with the name and dates of the license. */
  predicate Shows(r: Response, serverId: string, l: License, token: string, now: Moment) {
    && r.status == "active" && r.serverId == serverId && r.checkToken == token
    && r.productName == l.productName
    && r.regDate == OrElse(l.regDate, now.today) && r.nextDueDate == OrElse(l.nextDueDate, now.nextYear)
  }

  lemma ShownIsRead(r: VerifyResult, serverId: string, l: License, token: string, now: Moment, md5hex: string -> string)
    requires Shows(r.response, serverId, l, token, now)
    ensures ReadsActive(AnswerRead(r, md5hex), serverId, l, now, md5hex(SHARED_KEY_DATA + token))
  {
    AnswerFields(r, md5hex);
  }

  /** Every host that presents a key just issued reads an active subscription for itself,
      under the marked name of that key and its dates, with the hash of its own challenge. */
  lemma IssuedKeyReadsActive(reg: Registry, order: IssueInput, env: IssueEnv,
                             serverId: string, token: string, auto: bool, now: Moment, contactWrite: bool,
                             md5hex: string -> string, out: Outcome<License>, answer: VerifyResult)
    requires L.Inv(reg) && L.FreshIssue(reg, order, env)
    requires out == Issuing(reg, order, env) && out.result.Ok? && serverId != ""
    requires answer == Verifying(out.reg, serverId, out.result.value.key, token, auto, now, contactWrite, true).1
    ensures out.result.value.productName == DisplayName(out.result.value.key)
    ensures ReadsActive(AnswerRead(answer, md5hex), serverId, out.result.value, now, md5hex(SHARED_KEY_DATA + token))
  {
    IssuedKeyIsShown(reg, order, env, serverId, token, auto, now, contactWrite);
    ShownIsRead(answer, serverId, out.result.value, token, now, md5hex);
  }

  lemma IssuedKeyIsShown(reg: Registry, order: IssueInput, env: IssueEnv,
                         serverId: string, token: string, auto: bool, now: Moment, contactWrite: bool)
    requires L.Inv(reg) && L.FreshIssue(reg, order, env)
    requires Issuing(reg, order, env).result.Ok? && serverId != ""
    ensures var out := Issuing(reg, order, env);
      var l := out.result.value;
      && l.productName == DisplayName(l.key)
      && Shows(Verifying(out.reg, serverId, l.key, token, auto, now, contactWrite, true).1.response, serverId, l, token, now)
  {
    var out := Issuing(reg, order, env);
    L.IssuedKey(reg, order, env);
    L.IssueKeepsInv(reg, order, env);
    L.UniqueIsFound(out.reg.licenses, out.result.value);
    L.IssuedKeyIsHonoured(reg, order, env, serverId, token, auto, now, contactWrite);
    ActiveAnswerShows(out.reg, serverId, out.result.value.key, token, auto, now, contactWrite, true);
  }

  /** A host that is answered active on a key added by hand reads the name and the dates that
      the adding was given, and where it was given none the name of the key and the year from
      the day of the adding. */
  lemma AddedKeyReadsActive(reg: Registry, request: AddInput, addedAt: Moment, write: bool, out: Outcome<License>,
                            serverId: string, token: string, auto: bool, now: Moment, contactWrite: bool,
                            md5hex: string -> string, answer: VerifyResult)
    requires out == Adding(reg, request, addedAt, write) && out.result.Ok?
    requires answer == Verifying(out.reg, serverId, request.key, token, auto, now, contactWrite, true).1 && answer.active
    ensures var f := AnswerRead(answer, md5hex);
      && f.Some? && |f.value| >= 6
      && f.value[0] == Field("status", "active")
      && f.value[1] == Field("validdirectory", serverId)
      && f.value[2] == Field("productname", V.Else(request.productName, Describe(request.key).name))
      && f.value[3] == Field("regdate", OrElse(V.Or(request.regDate, addedAt.today), now.today))
      && f.value[4] == Field("nextduedate", OrElse(V.Or(request.nextDueDate, addedAt.nextYear), now.nextYear))
      && f.value[|f.value| - 1] == Field("md5hash", md5hex(SHARED_KEY_DATA + token))
  {
    V.AddingStores(reg, request, addedAt, write);
    ActiveAnswerShows(out.reg, serverId, request.key, token, auto, now, contactWrite, true);
    ShownIsRead(answer, serverId, out.result.value, token, now, md5hex);
  }
}
