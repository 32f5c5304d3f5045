/** Whether an installation may host: signed verdicts, kept for as long as they stand. */
module Authorization {
  import opened Wrappers
  import opened Bytes

  datatype Standing = Active | Blocked

  datatype Verdict = Verdict(installationId: Data, status: Standing, reason: Option<Data>, checkedAt: nat, validUntil: nat)

  const VERDICT_LABEL: string := "hopdesk/installation/verdict/v1"
  const MAX_GRACE_MS: nat := 2592000000
  const CLOCK_SLACK_MS: nat := 86400000

  // ---- what is signed ---------------------------------------------------------------------------

  function StatusName(s: Standing): Data { if s.Active? then Utf8("active") else Utf8("blocked") }

  function OrEmpty(reason: Option<Data>): Data { if reason.Some? then reason.value else [] }

  function JoinNul(fields: seq<Data>): Data {
    if fields == [] then [] else if |fields| == 1 then fields[0] else fields[0] + [Lit(0)] + JoinNul(fields[1..])
  }

  function VerdictBytes(v: Verdict): Data {
    JoinNul([v.installationId, StatusName(v.status), OrEmpty(v.reason), Decimal(v.checkedAt), Decimal(v.validUntil)])
  }

  function Statement(v: Verdict): Data { Utf8(VERDICT_LABEL) + [Lit(0)] + VerdictBytes(v) }

  function Signed(key: Data, v: Verdict): Data { Block(Signature(key, Statement(v)), 0, 64) }

  // ---- what arrives -----------------------------------------------------------------------------

  /** A reply or a cache file; a field is none where it is missing or not of its type. */
  datatype Reply = Reply(installationId: Option<Data>, status: Option<Standing>, reason: Option<Data>,
                         checkedAt: Option<nat>, validUntil: Option<nat>, signature: Option<Data>)

  function VerdictFrom(r: Reply): Option<Verdict> {
    if r.status.None? || r.installationId.None? || r.checkedAt.None? || r.validUntil.None? then None
    else Some(Verdict(r.installationId.value, r.status.value, r.reason, r.checkedAt.value, r.validUntil.value))
  }

  /** A build's service and key, if it has them, and the installation it runs as. */
  datatype Config = Config(serviceUrl: bool, servicePublicKey: Option<Data>, installationId: Data)

  predicate Configured(c: Config) { c.serviceUrl && c.servicePublicKey.Some? }

  /** The verdict of a reply that the service signed about this installation. */
  function Believed(c: Config, r: Reply): Option<Verdict> {
    match (c.servicePublicKey, r.signature, VerdictFrom(r))
    case (Some(key), Some(signature), Some(v)) =>
      if signature == Signed(key, v) && v.installationId == c.installationId then Some(v) else None
    case _ => None
  }

  // ---- what it means -----------------------------------------------------------------------------

  datatype State = StateActive | StateBlocked | StateUnverified | StateDisabled

  function Min(a: int, b: int): int { if a < b then a else b }

  function Status(c: Config, cached: Option<Verdict>, now: int): State {
    if !Configured(c) then StateDisabled
    else
      match cached
      case None => StateUnverified
      case Some(v) =>
        if v.status.Blocked? then StateBlocked
        else if Min(v.validUntil, v.checkedAt + MAX_GRACE_MS) <= now || v.checkedAt > now + CLOCK_SLACK_MS then StateUnverified
        else StateActive
  }

  function MayHost(c: Config, cached: Option<Verdict>, now: int): bool {
    var s := Status(c, cached, now);
    s.StateActive? || s.StateDisabled?
  }

  /** The decision without an object at hand: a configured build with no check at all may not host. */
  function MayHostWith(configured: bool, status: Option<State>): (ok: bool)
    ensures configured && status.None? ==> !ok
    ensures !configured ==> ok
    ensures configured && status.Some? ==> (ok <==> status.value != StateBlocked && status.value != StateUnverified)
  {
    !configured || (status.Some? && (status.value.StateActive? || status.value.StateDisabled?))
  }

  class Checker {
    const config: Config
    var cached: Option<Verdict>
    var file: Option<Reply>    // the cache file, which anything on the computer may change

    constructor (config: Config, file: Option<Reply>)
      ensures this.config == config && this.file == file
      ensures cached == if file.Some? then Believed(config, file.value) else None
    {
      this.config, this.file := config, file;
      cached := if file.Some? then ReadCache(config, file.value) else None;
    }

    static function ReadCache(config: Config, raw: Reply): (v: Option<Verdict>)
      ensures v == Believed(config, raw)
    {
      var statement := VerdictFrom(raw);
      if config.servicePublicKey.None? || raw.signature.None? || statement.None? then None
      else if raw.signature.value != Signed(config.servicePublicKey.value, statement.value) then None
      else if statement.value.installationId == config.installationId then statement else None
    }

    /** Takes an answer only if the service gave it, and gave it about this installation. */
    method Accept(r: Reply)
      modifies this
      ensures var v := Believed(config, r);
              cached == (if v.Some? then v else old(cached)) && file == (if v.Some? then Some(r) else old(file))
    {
      var statement := VerdictFrom(r);
      if config.servicePublicKey.None? || r.signature.None? || statement.None? {
        return;
      }
      if r.signature.value != Signed(config.servicePublicKey.value, statement.value) {
        return;
      }
      if statement.value.installationId != config.installationId {
        return;
      }
      cached, file := statement, Some(r);
    }

    function MayHostAt(now: int): (ok: bool)
      reads this
      ensures ok == MayHost(config, cached, now)
      ensures ok == MayHostWith(Configured(config), Some(Status(config, cached, now)))
    {
      var s := Status(config, cached, now);
      s.StateActive? || s.StateDisabled?
    }
  }
}
