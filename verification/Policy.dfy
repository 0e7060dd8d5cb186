/**
 * Lifecycle adjudication: merging a client's requested lifecycle with the server's policy.
 * Instants are microseconds since a fixed origin; durations in policies are whole seconds.
 */
module Policy {
  import opened Basics

  const MICROS: int := 1_000_000

  /** The fields of a lifecycle document a client or an administrator may give. */
  datatype Requested = Requested(mode: Option<string>, action: Option<string>, ttl: Option<int>, expiresAt: Option<int>)

  datatype PolicyConfig = PolicyConfig(
    serverDefault: Requested, allowOverride: bool, permanentAllowed: bool,
    minimumTtl: int, maximumTtl: int, allowedModes: set<string>, allowedActions: set<string>)

  datatype Effective = Effective(mode: string, action: string, ttl: Option<int>, expiresAt: Option<int>)

  datatype PolicyError = ModeNotAllowed | ActionNotAllowed | PermanentNotAllowed | TtlRequired | ExpiryRequired
    | TtlOutOfRange

  const NOTHING: Requested := Requested(None, None, None, None)

  /** `a or b` for optional strings, where the empty string is false. */
  function OrText(a: Option<string>, b: string): string {
    if a.Some? && a.value != "" then a.value else b
  }

  /** `a or b` for optional integers, where zero is false. */
  function OrNumber(a: Option<int>, b: Option<int>): Option<int> {
    if a.Some? && a.value != 0 then a else b
  }

  /** `int(timedelta.total_seconds())`: truncation toward zero. */
  function WholeSeconds(micros: int): int {
    if micros >= 0 then micros / MICROS else -((-micros) / MICROS)
  }

  predicate CountsTtl(mode: string) { mode == "ttl" || mode == "temporary" || mode == "sliding_ttl" }

  /** `compute_effective_lifecycle`; `base` is `completed_at or now`. */
  function Compute(cfg: PolicyConfig, requested: Option<Requested>, base: int): Result<Effective, PolicyError> {
    var r := if cfg.allowOverride then requested.GetOr(NOTHING) else NOTHING;
    var mode := OrText(r.mode, cfg.serverDefault.mode.GetOr("ttl"));
    var action := OrText(r.action, cfg.serverDefault.action.GetOr("delete"));
    var ttl := OrNumber(r.ttl, cfg.serverDefault.ttl);
    if mode !in cfg.allowedModes then Err(ModeNotAllowed)
    else if action !in cfg.allowedActions then Err(ActionNotAllowed)
    else if mode == "permanent" && !cfg.permanentAllowed then Err(PermanentNotAllowed)
    else if CountsTtl(mode) then
      if ttl.None? then Err(TtlRequired)
      else if !(cfg.minimumTtl <= ttl.value <= cfg.maximumTtl) then Err(TtlOutOfRange)
      else Ok(Effective(mode, action, ttl, Some(base + ttl.value * MICROS)))
    else if mode == "expires_at" then
      if r.expiresAt.None? then Err(ExpiryRequired)
      else if WholeSeconds(r.expiresAt.value - base) < cfg.minimumTtl then Err(TtlOutOfRange)
      else Ok(Effective(mode, action, Some(WholeSeconds(r.expiresAt.value - base)), r.expiresAt))
    else Ok(Effective(mode, action, None, None))
  }

  /** When the worker must act on a file: at its expiry, unless the action is "none". */
  function Schedule(action: string, expiresAt: Option<int>): Option<int> {
    if action != "none" then expiresAt else None
  }

  /** The client is heard: overriding is allowed and a document came. */
  predicate Heard(cfg: PolicyConfig, requested: Option<Requested>) { cfg.allowOverride && requested.Some? }

  /**
   * What is adjudicated, field by field: what a client that is heard gave, where it gave something, and the
   * administrator's default otherwise. Only a client can give an instant.
   */
  ghost predicate Asked(cfg: PolicyConfig, requested: Option<Requested>, mode: string, action: string, ttl: Option<int>,
                        at: Option<int>)
  {
    && mode == (if Heard(cfg, requested) && requested.value.mode.GetOr("") != "" then requested.value.mode.value
                else cfg.serverDefault.mode.GetOr("ttl"))
    && action == (if Heard(cfg, requested) && requested.value.action.GetOr("") != "" then requested.value.action.value
                  else cfg.serverDefault.action.GetOr("delete"))
    && ttl == (if Heard(cfg, requested) && requested.value.ttl.GetOr(0) != 0 then requested.value.ttl
               else cfg.serverDefault.ttl)
    && at == (if Heard(cfg, requested) then requested.value.expiresAt else None)
  }

  /** The modes whose lifetime is counted in seconds from the base. */
  const COUNTED: set<string> := {"ttl", "temporary", "sliding_ttl"}

  /** The instant is too early: the whole seconds up to it are fewer than the minimum. */
  predicate TooEarly(minimum: int, at: int, base: int) {
    if minimum > 0 then at < base + minimum * MICROS else at <= base + (minimum - 1) * MICROS
  }

  /** A switched-off override: whatever the client asks for, the administrator's default is adjudicated. */
  lemma OverrideOff(cfg: PolicyConfig, a: Option<Requested>, b: Option<Requested>, base: int)
    requires !cfg.allowOverride
    ensures Compute(cfg, a, base) == Compute(cfg, b, base)
  {}

  /** The mode and the action are allowed, and "permanent" only where the policy permits it. */
  predicate Permitted(cfg: PolicyConfig, mode: string, action: string) {
    mode in cfg.allowedModes && action in cfg.allowedActions && (mode == "permanent" ==> cfg.permanentAllowed)
  }

  /** When an adjudication refuses, and with which error: the first check that fails. */
  lemma RefusedExactly(cfg: PolicyConfig, requested: Option<Requested>, base: int, mode: string, action: string,
                       ttl: Option<int>, at: Option<int>)
    requires Asked(cfg, requested, mode, action, ttl, at)
    ensures var r := Compute(cfg, requested, base);
      && (r == Err(ModeNotAllowed) <==> mode !in cfg.allowedModes)
      && (r == Err(ActionNotAllowed) <==> mode in cfg.allowedModes && action !in cfg.allowedActions)
      && (r == Err(PermanentNotAllowed) <==>
            mode in cfg.allowedModes && action in cfg.allowedActions && mode == "permanent" && !cfg.permanentAllowed)
      && (r == Err(TtlRequired) <==> Permitted(cfg, mode, action) && mode in COUNTED && ttl.None?)
      && (r == Err(ExpiryRequired) <==> Permitted(cfg, mode, action) && mode == "expires_at" && at.None?)
      && (r == Err(TtlOutOfRange) <==>
            && Permitted(cfg, mode, action)
            && (mode in COUNTED || mode == "expires_at")
            && (mode in COUNTED ==> ttl.Some? && !(cfg.minimumTtl <= ttl.value <= cfg.maximumTtl))
            && (mode == "expires_at" ==> at.Some? && TooEarly(cfg.minimumTtl, at.value, base)))
  {
    if at.Some? { WholeSecondsBelow(cfg.minimumTtl, at.value, base); }
  }

  lemma WholeSecondsBelow(minimum: int, at: int, base: int)
    ensures WholeSeconds(at - base) < minimum <==> TooEarly(minimum, at, base)
  {}

  /** Whose values an accepted lifecycle holds. */
  lemma AcceptedAsAsked(cfg: PolicyConfig, requested: Option<Requested>, base: int, mode: string, action: string,
                        ttl: Option<int>, at: Option<int>)
    requires Asked(cfg, requested, mode, action, ttl, at) && Compute(cfg, requested, base).Ok?
    ensures var e := Compute(cfg, requested, base).value;
      && e.mode == mode && e.action == action
      && (if mode in COUNTED then ttl.Some? && e.ttl == ttl && e.expiresAt == Some(base + ttl.value * MICROS)
          else if mode == "expires_at" then at.Some? && e.expiresAt == at
          else e.ttl == None && e.expiresAt == None)
  {}

  /**
   * No accepted lifecycle escapes the server policy: its mode and action are allowed, "permanent" only
   * where permitted, a file that expires is kept at least the minimum, and a counted lifetime ends
   * exactly `ttl` seconds after the base and within the maximum. (With a minimum of zero, truncation
   * lets an `expires_at` less than one second in the past through.)
   */
  lemma AcceptedObeysPolicy(cfg: PolicyConfig, requested: Option<Requested>, base: int)
    requires 0 <= cfg.minimumTtl && Compute(cfg, requested, base).Ok?
    ensures var e := Compute(cfg, requested, base).value;
      && e.mode in cfg.allowedModes && e.action in cfg.allowedActions
      && (e.mode == "permanent" ==> cfg.permanentAllowed && e.expiresAt.None?)
      && (e.expiresAt.Some? <==> CountsTtl(e.mode) || e.mode == "expires_at")
      && (e.expiresAt.Some? <==> e.ttl.Some?)
      && (e.expiresAt.Some? && cfg.minimumTtl > 0 ==> e.expiresAt.value >= base + cfg.minimumTtl * MICROS)
      && (e.expiresAt.Some? ==> e.expiresAt.value > base - MICROS)
      && (e.expiresAt.Some? && e.expiresAt.value >= base ==>
            base + e.ttl.value * MICROS <= e.expiresAt.value < base + (e.ttl.value + 1) * MICROS)
      && (CountsTtl(e.mode) ==> e.expiresAt.value == base + e.ttl.value * MICROS <= base + cfg.maximumTtl * MICROS)
  {}

  /**
   * The maximum lifetime binds exactly the counted modes: for `expires_at` every instant from the
   * minimum on is accepted, however late.
   */
  lemma NoCeilingOnExpiresAt(cfg: PolicyConfig, action: string, at: int, base: int)
    requires cfg.allowOverride && 0 < cfg.minimumTtl && action != ""
    requires "expires_at" in cfg.allowedModes && action in cfg.allowedActions
    ensures Compute(cfg, Some(Requested(Some("expires_at"), Some(action), None, Some(at))), base).Ok?
      <==> at >= base + cfg.minimumTtl * MICROS
  {
    if at >= base {
      assert (at - base) / MICROS >= cfg.minimumTtl <==> at - base >= cfg.minimumTtl * MICROS;
    }
  }
}
