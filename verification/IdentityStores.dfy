/** The certificate stores: at most one active certificate, and when the two adapters agree on which. */
module IdentityStores {
  import opened Options

  datatype Cert = Cert(certId: string, certPem: string, privKeyPem: string, isActive: bool, expiresAt: string)

  type Certs = map<string, Cert>

  function Deactivated(certs: Certs): Certs {
    map id | id in certs :: certs[id].(isActive := false)
  }

  /** Storing an active certificate deactivates the others. */
  function Stored(certs: Certs, e: Cert): Certs {
    (if e.isActive then Deactivated(certs) else certs)[e.certId := e]
  }

  predicate AtMostOneActive(certs: Certs) {
    forall a, b :: a in certs && b in certs && certs[a].isActive && certs[b].isActive ==> a == b
  }

  function RunCerts(entries: seq<Cert>): Certs {
    if entries == [] then map[] else Stored(RunCerts(entries[..|entries| - 1]), entries[|entries| - 1])
  }

  /** The id the in-memory store remembers as active: that of the last entry stored as active. */
  function ActiveId(entries: seq<Cert>): Option<string> {
    if entries == [] then None
    else
      var e := entries[|entries| - 1];
      if e.isActive then Some(e.certId) else ActiveId(entries[..|entries| - 1])
  }

  /** The remembered id is stored, and only its certificate can be active. */
  predicate Consistent(certs: Certs, active: Option<string>) {
    && (active.Some? ==> active.value in certs)
    && forall id <- certs :: certs[id].isActive ==> active == Some(id)
  }

  lemma StoreConsistent(certs: Certs, active: Option<string>, e: Cert)
    requires Consistent(certs, active)
    ensures Consistent(Stored(certs, e), if e.isActive then Some(e.certId) else active)
    ensures !e.isActive && active == Some(e.certId) ==> Consistent(Stored(certs, e), active)
  {
  }

  /** After any run at most one certificate is active. */
  lemma {:induction false} RunConsistent(entries: seq<Cert>)
    ensures Consistent(RunCerts(entries), ActiveId(entries)) && AtMostOneActive(RunCerts(entries))
  {
    if entries != [] {
      RunConsistent(entries[..|entries| - 1]);
      StoreConsistent(RunCerts(entries[..|entries| - 1]), ActiveId(entries[..|entries| - 1]), entries[|entries| - 1]);
    }
  }

  /** The in-memory answer: whatever is stored under the remembered id. */
  function MemoryActive(certs: Certs, active: Option<string>): Option<Cert> {
    match active
    case None => None
    case Some(id) => if id in certs then Some(certs[id]) else None
  }

  /** The table's answer: a certificate whose flag is set, if there is one. */
  predicate TableActive(certs: Certs, answer: Option<Cert>) {
    match answer
    case None => forall id <- certs :: !certs[id].isActive
    case Some(c) => exists id <- certs :: certs[id] == c && c.isActive
  }

  /** Nothing was stored as active yet, or what is stored under the remembered id is active. */
  predicate StillActive(certs: Certs, active: Option<string>) {
    active.None? || (active.value in certs && certs[active.value].isActive)
  }

  /**
   * The adapters agree on the active certificate exactly when the certificate last stored as active has not since been
   * stored again as inactive: the in-memory store goes on answering with it, the table answers with none.
   */
  lemma ActiveAgrees(entries: seq<Cert>, answer: Option<Cert>)
    requires TableActive(RunCerts(entries), answer)
    ensures MemoryActive(RunCerts(entries), ActiveId(entries)) == answer
      <==> StillActive(RunCerts(entries), ActiveId(entries))
  {
    RunConsistent(entries);
  }

  /** Storing an entry breaks the agreement exactly when it is inactive and has the remembered id. */
  lemma DivergesOn(entries: seq<Cert>, e: Cert)
    requires StillActive(RunCerts(entries), ActiveId(entries))
    ensures StillActive(RunCerts(entries + [e]), ActiveId(entries + [e])) <==> e.isActive || ActiveId(entries) != Some(e.certId)
  {
    assert (entries + [e])[..|entries|] == entries;
    RunConsistent(entries);
  }

  class MemoryIdentities {
    var certs: Certs
    var activeId: Option<string>

    ghost predicate Valid()
      reads this
    {
      Consistent(certs, activeId)
    }

    constructor ()
      ensures Valid() && certs == map[] && activeId == None
    {
      certs, activeId := map[], None;
    }

    /** Every active certificate is deactivated in place before the new one is set. */
    method StoreCert(entry: Cert)
      requires Valid()
      modifies this
      ensures Valid() && certs == Stored(old(certs), entry)
      ensures activeId == if entry.isActive then Some(entry.certId) else old(activeId)
    {
      StoreConsistent(certs, activeId, entry);
      if entry.isActive {
        var left := certs.Keys;
        while left != {}
          invariant left <= old(certs).Keys && activeId == old(activeId)
          invariant certs.Keys == old(certs).Keys
          invariant forall id <- certs :: certs[id] == if id in left then old(certs)[id] else old(certs)[id].(isActive := false)
          decreases |left|
        {
          var id :| id in left;
          if certs[id].isActive {
            certs := certs[id := certs[id].(isActive := false)];
          }
          left := left - {id};
        }
        assert certs == Deactivated(old(certs));
        activeId := Some(entry.certId);
      }
      certs := certs[entry.certId := entry];
    }

    /** The stored entry last set as active, whether or not it still is; any entry that is active is the one returned. */
    method GetActiveCert() returns (c: Option<Cert>)
      requires Valid()
      ensures c == MemoryActive(certs, activeId)
      ensures c.None? <==> activeId.None?
      ensures c.Some? ==> activeId.value in certs && c.value == certs[activeId.value]
      ensures forall id <- certs :: certs[id].isActive ==> c == Some(certs[id])
    {
      if activeId.None? || activeId.value !in certs {
        return None;
      }
      return Some(certs[activeId.value]);
    }
  }

  class TableIdentities {
    var certs: Certs

    constructor ()
      ensures certs == map[]
    {
      certs := map[];
    }

    /** UPDATE of all rows, then INSERT OR REPLACE. */
    method StoreCert(entry: Cert)
      modifies this
      ensures certs == Stored(old(certs), entry)
    {
      if entry.isActive {
        certs := map id | id in certs :: certs[id].(isActive := false);
      }
      certs := certs[entry.certId := entry];
    }

    method GetActiveCert() returns (c: Option<Cert>)
      ensures TableActive(certs, c)
    {
      var active := set id | id in certs && certs[id].isActive;
      if active == {} {
        c := None;
        forall id | id in certs ensures !certs[id].isActive {
          assert id !in active;
        }
      } else {
        var id :| id in active;
        c := Some(certs[id]);
      }
    }
  }
}
