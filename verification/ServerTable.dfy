/**
 The table of backup servers and their credentials (gui/pbs_server.go and gui/config.go). The user interface never
 sees a stored credential: an empty one in an update means "keep it", but only for the same token or user.
 */
module ServerTables {
  import opened Options

  datatype Entry = Entry(id: string, name: string, baseURL: string, authID: string, secret: string,
                         username: string, password: string, datastore: string, rest: string)

  /** Exactly one way to log in, and nothing of the other. */
  predicate OneMethod(e: Entry) {
    (e.authID != "" && e.username == "" && e.password == "") || (e.authID == "" && e.username != "" && e.secret == "")
  }

  predicate HasCredential(e: Entry) {
    if e.authID != "" then e.secret != "" else e.password != ""
  }

  /** An API token wins over a user; an empty credential is taken from the stored entry of the same token or user. */
  function Normalized(existing: Option<Entry>, e: Entry, requireCreds: bool): Option<Entry> {
    if e.authID != "" then
      var secret := if e.secret == "" && existing.Some? && existing.value.authID == e.authID then existing.value.secret
        else e.secret;
      if secret == "" && requireCreds then None else Some(e.(username := "", password := "", secret := secret))
    else if e.username == "" then None
    else
      var password := if e.password == "" && existing.Some? && existing.value.username == e.username
        then existing.value.password else e.password;
      if password == "" && requireCreds then None else Some(e.(secret := "", password := password))
  }

  /** Everything but the presence of a credential; `wellFormed` is the formats of address, names and fingerprint. */
  predicate FieldsOK(e: Entry, wellFormed: Entry -> bool) {
    e.id != "" && e.name != "" && e.baseURL != "" && e.datastore != "" && (e.authID != "" || e.username != "")
      && wellFormed(e)
  }

  /** What is stored for an entry, if it is taken at all. */
  function Taken(existing: Option<Entry>, e: Entry, requireCreds: bool, wellFormed: Entry -> bool): Option<Entry> {
    var r := Normalized(existing, e, requireCreds);
    if r.Some? && FieldsOK(r.value, wellFormed) then r else None
  }

  /** A credential together with whom it was typed for. */
  datatype Typed = ForToken(authID: string, secret: string) | ForUser(username: string, password: string)

  function TypedIn(e: Entry): set<Typed> {
    if e.authID != "" then {ForToken(e.authID, e.secret)} else {ForUser(e.username, e.password)}
  }

  /** The credential of an entry was typed for that very token or user, or it is not known here. */
  predicate Provenance(e: Entry, typed: set<Typed>) {
    if e.authID != "" then e.secret == "" || ForToken(e.authID, e.secret) in typed
    else e.password == "" || ForUser(e.username, e.password) in typed
  }

  /**
   What a stored entry is like: one method, its own credentials, and none missing unless some caller could not see them.
   */
  predicate EntryOK(id: string, e: Entry, typed: set<Typed>, lenient: bool) {
    id != "" && e.id == id && OneMethod(e) && Provenance(e, typed) && (lenient || HasCredential(e))
  }

  lemma StillOK(id: string, e: Entry, typed: set<Typed>, lenient: bool, more: set<Typed>, evenMore: bool)
    requires EntryOK(id, e, typed, lenient) && typed <= more && (lenient ==> evenMore)
    ensures EntryOK(id, e, more, evenMore)
  {
  }

  lemma NormalizedIsSound(existing: Option<Entry>, e: Entry, requireCreds: bool, typed: set<Typed>)
    requires existing.Some? ==> OneMethod(existing.value) && Provenance(existing.value, typed)
    ensures var r := Normalized(existing, e, requireCreds);
            r.Some? ==>
              && OneMethod(r.value) && (requireCreds ==> HasCredential(r.value))
                  && Provenance(r.value, typed + TypedIn(e))
              && r.value.(secret := "", username := "", password := "") ==
                  e.(secret := "", username := "", password := "")
              && (e.authID == "" ==> r.value.username == e.username)
  {
  }

  /** What is taken may be stored under its ID. */
  lemma TakenIsOK(existing: Option<Entry>, e: Entry, requireCreds: bool, wellFormed: Entry -> bool, typed: set<Typed>,
                  lenient: bool)
    requires existing.Some? ==> OneMethod(existing.value) && Provenance(existing.value, typed)
    ensures var taken := Taken(existing, e, requireCreds, wellFormed);
            taken.Some? ==>
              taken.value.id == e.id && EntryOK(e.id, taken.value, typed + TypedIn(e), lenient || !requireCreds)
  {
    NormalizedIsSound(existing, e, requireCreds, typed);
  }

  /** A credential is refused, not borrowed, when it is missing for a token or user other than the stored one. */
  lemma NeverBorrowed(existing: Option<Entry>, e: Entry)
    requires if e.authID != "" then e.secret == "" && (existing.None? || existing.value.authID != e.authID)
             else e.password == "" && (existing.None? || existing.value.username != e.username)
    ensures Normalized(existing, e, true).None?
  {
  }

  /** A credential that was sent counts; without one the stored one stays, but only for the same token or user. */
  function Credential(sent: string, stored: Option<string>): string {
    if sent != "" || stored.None? then sent else stored.value
  }

  /** What is stored for this very token or user. */
  function Known(existing: Option<Entry>, e: Entry): (stored: Option<string>)
    ensures existing.None? ==> stored.None?
    ensures stored.Some? <==>
            existing.Some? && if e.authID != "" then existing.value.authID == e.authID
                              else existing.value.username == e.username
  {
    if existing.None? then None
    else if e.authID != "" then (if existing.value.authID == e.authID then Some(existing.value.secret) else None)
    else (if existing.value.username == e.username then Some(existing.value.password) else None)
  }

  /**
   An entry is refused exactly if it names neither a token nor a user, or has no credential where one is required; the
   entry taken is the one sent, with one method, and its credential is the one sent or the one kept.
   */
  lemma CredentialKept(existing: Option<Entry>, e: Entry, requireCreds: bool)
    ensures var r, sent := Normalized(existing, e, requireCreds), if e.authID != "" then e.secret else e.password;
            var credential := Credential(sent, Known(existing, e));
            && (r.None? <==> (e.authID == "" && e.username == "") || (requireCreds && credential == ""))
            && (r.Some? && e.authID != "" ==> r.value == e.(secret := credential, username := "", password := ""))
            && (r.Some? && e.authID == "" ==> r.value == e.(secret := "", password := credential))
  {
  }

  /** Nothing else is refused but an entry without ID, name, address or datastore, or with one of a wrong format. */
  lemma RefusedExactly(existing: Option<Entry>, e: Entry, requireCreds: bool, wellFormed: Entry -> bool)
    ensures var r, taken := Normalized(existing, e, requireCreds), Taken(existing, e, requireCreds, wellFormed);
            if r.None? || "" in [e.id, e.name, e.baseURL, e.datastore] || !wellFormed(r.value) then taken.None?
            else taken == r
  {
    var fields := [e.id, e.name, e.baseURL, e.datastore];
    assert fields[0] == e.id && fields[1] == e.name && fields[2] == e.baseURL && fields[3] == e.datastore;
  }

  class PBSServer {
    var id: string
    var name: string
    var baseURL: string
    var authID: string
    var secret: string
    var username: string
    var password: string
    var datastore: string
    var rest: string

    function Told(): Entry
      reads this
    {
      Entry(id, name, baseURL, authID, secret, username, password, datastore, rest)
    }

    constructor (e: Entry)
      ensures Told() == e
    {
      id, name, baseURL, authID, secret := e.id, e.name, e.baseURL, e.authID, e.secret;
      username, password, datastore, rest := e.username, e.password, e.datastore, e.rest;
    }

    /** Rewrites this entry in place; after an error it is not used any more. */
    method NormalizeServerAuth(existing: PBSServer?, requireCreds: bool) returns (ok: bool)
      requires existing != this
      modifies this
      ensures var before := if existing == null then None else Some(old(existing.Told()));
              var r := Normalized(before, old(Told()), requireCreds);
              (ok <==> r.Some?) && (ok ==> Told() == r.value)
    {
      if authID != "" {
        username, password := "", "";
        if secret == "" {
          if existing != null && existing.authID == authID {
            secret := existing.secret;
          } else if requireCreds {
            return false;
          }
        }
        return !(secret == "" && requireCreds);
      }
      authID, secret := "", "";
      if username == "" {
        return false;
      }
      if password == "" && existing != null && existing.username == username {
        password := existing.password;
      }
      return !(password == "" && requireCreds);
    }

    predicate FieldsValid(wellFormed: Entry -> bool)
      reads this
    {
      FieldsOK(Told(), wellFormed)
    }

    /** Normalised, then validated: every entry passes this before it is stored. */
    method Admit(existing: PBSServer?, requireCreds: bool, wellFormed: Entry -> bool) returns (ok: bool)
      requires existing != this
      modifies this
      ensures var before := if existing == null then None else Some(old(existing.Told()));
              var taken := Taken(before, old(Told()), requireCreds, wellFormed);
              (ok <==> taken.Some?) && (ok ==> Told() == taken.value)
    {
      ok := NormalizeServerAuth(existing, requireCreds);
      ok := ok && FieldsValid(wellFormed) && !(requireCreds && authID != "" && secret == "");
    }
  }

  class Config {
    const wellFormed: Entry -> bool
    var servers: map<string, PBSServer>
    var defaultID: string
    ghost var typed: set<Typed>
    ghost var lenient: bool

    /** There is a default just when there is a server, and it is one of them. */
    ghost predicate DefaultOK()
      reads this`servers, this`defaultID
    {
      (defaultID == "" <==> servers.Keys == {}) && (defaultID != "" ==> defaultID in servers)
    }

    ghost predicate EntriesOK()
      reads this`servers, this`typed, this`lenient, servers.Values
    {
      forall id :: id in servers ==> EntryOK(id, servers[id].Told(), typed, lenient)
    }

    /** What every sequence of operations from the empty table keeps. */
    ghost predicate Valid()
      reads this, servers.Values
    {
      DefaultOK() && EntriesOK()
    }

    constructor (wellFormed: Entry -> bool)
      ensures Valid() && servers.Keys == {} && !lenient && typed == {}
    {
      this.wellFormed := wellFormed;
      servers, defaultID, typed, lenient := map[], "", {}, false;
    }

    /** Put a sound entry into the table. */
    method Store(pbs: PBSServer)
      requires EntriesOK() && EntryOK(pbs.id, pbs.Told(), typed, lenient)
      modifies this`servers
      ensures EntriesOK() && servers == old(servers)[pbs.id := pbs]
    {
      servers := servers[pbs.id := pbs];
    }

    /** More was typed, by someone who may not see credentials: what is stored stays sound. */
    ghost method Remember(e: Entry, requireCreds: bool)
      requires EntriesOK()
      modifies this`typed, this`lenient
      ensures EntriesOK() && typed == old(typed) + TypedIn(e) && lenient == (old(lenient) || !requireCreds)
    {
      forall id | id in servers
        ensures EntryOK(id, servers[id].Told(), typed + TypedIn(e), lenient || !requireCreds)
      {
        StillOK(id, servers[id].Told(), typed, lenient, typed + TypedIn(e), lenient || !requireCreds);
      }
      typed, lenient := typed + TypedIn(e), lenient || !requireCreds;
    }

    /** A new server brings its credential with it. */
    method AddPBSServerMem(pbs: PBSServer) returns (ok: bool)
      requires Valid() && pbs !in servers.Values
      modifies this, pbs
      ensures Valid() && lenient == old(lenient)
      ensures var taken := Taken(None, old(pbs.Told()), true, wellFormed);
              (ok <==> taken.Some? && old(pbs.id) !in old(servers)) && (ok ==> pbs.Told() == taken.value)
      ensures ok ==> pbs.id == old(pbs.id) && servers == old(servers)[pbs.id := pbs]
      ensures ok ==> defaultID == if old(servers).Keys == {} then pbs.id else old(defaultID)
      ensures !ok ==> servers == old(servers) && defaultID == old(defaultID)
    {
      ghost var told := pbs.Told();
      TakenIsOK(None, told, true, wellFormed, typed, lenient);
      Remember(told, true);
      ok := pbs.Admit(null, true, wellFormed);
      if !ok || pbs.id in servers {
        return false;
      }
      if servers.Keys == {} {
        defaultID := pbs.id;
      }
      Store(pbs);
    }

    /** An update keeps what it does not bring; whoever cannot see credentials may leave them unknown. */
    method UpdatePBSServerMem(pbs: PBSServer, requireCreds: bool) returns (ok: bool)
      requires Valid() && pbs !in servers.Values
      modifies this`servers, this`typed, this`lenient, pbs
      ensures Valid() && lenient == (old(lenient) || !requireCreds)
      ensures old(pbs.id) !in old(servers) ==> !ok
      ensures old(pbs.id) in old(servers) ==>
                var taken := Taken(Some(old(servers[pbs.id].Told())), old(pbs.Told()), requireCreds, wellFormed);
                if ok then taken == Some(pbs.Told()) else taken == None
      ensures ok ==> pbs.id == old(pbs.id) && servers == old(servers)[pbs.id := pbs]
      ensures !ok ==> servers == old(servers)
    {
      ghost var told := pbs.Told();
      Remember(told, requireCreds);
      if pbs.id !in servers {
        return false;
      }
      var existing := servers[pbs.id];
      TakenIsOK(Some(existing.Told()), told, requireCreds, wellFormed, typed, lenient);
      ok := pbs.Admit(existing, requireCreds, wellFormed);
      if ok {
        Store(pbs);
      }
    }

    /** Deleting the default picks another server, any of them. */
    method DeletePBSServerMem(id: string) returns (ok: bool)
      requires Valid()
      modifies this`servers, this`defaultID
      ensures Valid() && (ok <==> id in old(servers))
      ensures servers == old(servers) - {id}
      ensures id != old(defaultID) ==> defaultID == old(defaultID)
    {
      if id !in servers {
        assert servers == servers - {id};
        return false;
      }
      servers := servers - {id};
      if defaultID == id {
        if servers.Keys != {} {
          var next :| next in servers;
          assert EntryOK(next, servers[next].Told(), typed, lenient);
          defaultID := next;
        } else {
          defaultID := "";
        }
      } else {
        assert defaultID in servers.Keys;
      }
      return true;
    }

    method SetDefaultPBSMem(id: string) returns (ok: bool)
      requires Valid()
      modifies this`defaultID
      ensures Valid() && (ok <==> id in servers) && defaultID == if ok then id else old(defaultID)
    {
      if id !in servers {
        return false;
      }
      defaultID := id;
      return true;
    }

    /**
     The server asked for, or the default one. In a table that was built here only an unknown ID or an empty table
     fails.
     */
    method GetPBSServer(wanted: string) returns (server: PBSServer?)
      ensures server != null ==> server in servers.Values
      ensures Valid() && server != null ==> server.id == if wanted == "" then defaultID else wanted
      ensures Valid() ==> (server == null <==> if wanted == "" then servers.Keys == {} else wanted !in servers)
    {
      var id := if wanted == "" then defaultID else wanted;
      if id == "" && |servers| == 1 {
        var only :| only in servers;
        assert only in servers.Keys;
        return servers[only];
      }
      if id == "" || id !in servers {
        return null;
      }
      return servers[id];
    }
  }
}
