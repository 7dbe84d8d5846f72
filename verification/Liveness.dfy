/** What it means for a name, a key or a rule to be in force, on the stored fields alone. */
module Liveness {
  import opened BnsModel
  import opened RegistryTables

  /** A period without an end has end 0. */
  predicate Within(from: nat, until: nat, now: nat) {
    from <= now && (until == 0 || now < until)
  }

  /** The stored row is active and has not run out. */
  predicate Live(t: Tables, n: Name, now: nat) {
    n in t.names && t.names[n].status == Active && Within(0, t.names[n].expireAt, now)
  }

  /** Live, and able to sign: it counts at least one key. */
  predicate Keyed(t: Tables, n: Name, now: nat) {
    Live(t, n, now) && n in t.sets && t.sets[n].activeKeyCount > 0
  }

  /** An active key for authentication, inside its period. */
  predicate LiveKey(key: AuthorityKey, now: nat) {
    key.status == KeyActive && 0 in key.purposes && Within(key.validFrom, key.validUntil, now)
  }

  /** A rule of this actor for this document type, or for all, with this permission, inside its period. */
  predicate InForce(r: ControllerRule, actor: Principal, ty: DocType, permission: nat, now: nat) {
    && r.controller == actor && (r.docType == "" || r.docType == ty) && permission in r.permissions
    && Within(r.validFrom, r.validUntil, now)
  }
}
