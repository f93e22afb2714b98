/**
 * The access classifier: the `pw` query value, compared against the four
 * configured secrets, decides an access level from 0 to 3.
 */
module Access {
  import opened Wrappers

  /** 0 = none, 1 = basic, 2 = basic + lot, 3 = basic + lot + audit. */
  type Level = l: int | 0 <= l <= 3

  /** The secrets `PW_ADMIN`, `PW_L3`, `PW_L2` and `PW_L1`; `None` when unset. */
  datatype Secrets = Secrets(admin: Option<string>, l3: Option<string>, l2: Option<string>, l1: Option<string>)

  /** `s || ""` for a string that may be absent: absent and empty both read as "". */
  function OrEmpty(s: Option<string>): string {
    s.GetOr("")
  }

  /** Each secret with the level it grants, in the order the classifier tries them. */
  function SecretTable(cfg: Secrets): seq<(string, Level)> {
    [(OrEmpty(cfg.admin), 3), (OrEmpty(cfg.l3), 3), (OrEmpty(cfg.l2), 2), (OrEmpty(cfg.l1), 1)]
  }

  /** A non-empty credential grants level `l` when some secret configured for `l` equals it exactly. */
  predicate Grants(cfg: Secrets, pw: string, l: Level) {
    pw != "" && (pw, l) in SecretTable(cfg)
  }

  /**
   * The level of a request whose `pw` query parameter is `query`: the
   * first secret of the chain ADMIN, L3, L2, L1 that equals the credential
   * decides, and an empty credential never matches.
   */
  function Classify(cfg: Secrets, query: Option<string>): (level: Level)
    // the highest level the credential grants, and 0 exactly when it grants none
    ensures level != 0 ==> Grants(cfg, OrEmpty(query), level)
    ensures level == 0 ==> forall l: Level :: !Grants(cfg, OrEmpty(query), l)
    ensures forall l: Level :: Grants(cfg, OrEmpty(query), l) ==> l <= level
    // an absent or empty credential is level 0 whatever the secrets
    ensures OrEmpty(query) == "" ==> level == 0
    // an unset or empty secret never lets a credential through
    ensures level == 1 ==> OrEmpty(cfg.l1) != ""
    ensures level == 2 ==> OrEmpty(cfg.l2) != ""
    ensures level == 3 ==> OrEmpty(cfg.admin) != "" || OrEmpty(cfg.l3) != ""
  {
    var pw := OrEmpty(query);
    if pw != "" && pw == OrEmpty(cfg.admin) then 3
    else if pw != "" && pw == OrEmpty(cfg.l3) then 3
    else if pw != "" && pw == OrEmpty(cfg.l2) then 2
    else if pw != "" && pw == OrEmpty(cfg.l1) then 1
    else 0
  }

  /** The first match wins: the admin secret gives 3 whatever the others are; a credential equal to both the L2 and L1 secrets gives 2. */
  lemma PriorityOrder(cfg: Secrets, pw: string)
    requires pw != ""
    ensures pw == OrEmpty(cfg.admin) ==> Classify(cfg, Some(pw)) == 3
    ensures pw == OrEmpty(cfg.l3) ==> Classify(cfg, Some(pw)) == 3
    ensures pw == OrEmpty(cfg.l2) && pw != OrEmpty(cfg.admin) && pw != OrEmpty(cfg.l3) ==> Classify(cfg, Some(pw)) == 2
    ensures pw == OrEmpty(cfg.l1) && pw !in {OrEmpty(cfg.admin), OrEmpty(cfg.l3), OrEmpty(cfg.l2)} ==> Classify(cfg, Some(pw)) == 1
  {
  }

  /** Unsetting a secret and setting it to "" are the same configuration as far as any credential is concerned. */
  lemma UnsetSecretIsEmpty(cfg: Secrets, query: Option<string>)
    ensures Classify(cfg.(l1 := None), query) == Classify(cfg.(l1 := Some("")), query)
    ensures Classify(cfg.(admin := None), query) == Classify(cfg.(admin := Some("")), query)
    ensures Classify(cfg.(l3 := None), query) == Classify(cfg.(l3 := Some("")), query)
    ensures Classify(cfg.(l2 := None), query) == Classify(cfg.(l2 := Some("")), query)
  {
  }
}
