/**
 * The responsible-organisation loop of ckanext/spatial/harvesters.py, in
 * its GEMINI form (`GeminiHarvester.write_package_from_gemini_string`) and
 * its INSPIRE form (the OGPD import, which also counts `pointOfContact` as
 * an owner and fills the two OGPD contact records).
 */
module HarvesterParties {
  import opened PyText

  /** One entry of `responsible-organisation`: its `role` and `organisation-name`. */
  datatype Party = Party(role: string, organisation: string)

  /** An OGPD contact record: `{'role', 'name', 'url', 'email', 'address'}`. */
  datatype Contact = Contact(role: string, name: string, url: string, email: string, address: string)

  /** The first branch of the loop: `owner`, and on the INSPIRE path also `pointOfContact`. */
  predicate IsOwner(p: Party, inspire: bool)
  {
    p.role == "owner" || (inspire && p.role == "pointOfContact")
  }

  /** The `elif` branch. */
  predicate IsPublisher(p: Party, inspire: bool)
  {
    !IsOwner(p, inspire) && p.role == "publisher"
  }

  /** `owners`: the organisation of every owner, in order. */
  function Owners(ps: seq<Party>, inspire: bool): (r: seq<string>)
    ensures |r| <= |ps|
  {
    if |ps| == 0 then []
    else
      var last := ps[|ps| - 1];
      Owners(ps[..|ps| - 1], inspire) + (if IsOwner(last, inspire) then [last.organisation] else [])
  }

  /** `publishers`: the organisation of every publisher, in order. */
  function Publishers(ps: seq<Party>, inspire: bool): (r: seq<string>)
    ensures |r| <= |ps|
  {
    if |ps| == 0 then []
    else
      var last := ps[|ps| - 1];
      Publishers(ps[..|ps| - 1], inspire) + (if IsPublisher(last, inspire) then [last.organisation] else [])
  }

  /**
   * `parties`: organisation name -> its role list, where a role is appended
   * only if the list does not hold it yet.
   */
  function RoleTable(ps: seq<Party>): (r: map<string, seq<string>>)
  {
    if |ps| == 0 then map[]
    else AddRole(RoleTable(ps[..|ps| - 1]), ps[|ps| - 1])
  }

  /** One party's update of `parties`. */
  function AddRole(t: map<string, seq<string>>, p: Party): map<string, seq<string>>
  {
    if p.organisation in t then
      if p.role in t[p.organisation] then t else t[p.organisation := t[p.organisation] + [p.role]]
    else t[p.organisation := [p.role]]
  }

  /** The roles the list names for `org`, repeats included, in order. */
  function RolesOf(ps: seq<Party>, org: string): (r: seq<string>)
  {
    if |ps| == 0 then []
    else
      var p := ps[|ps| - 1];
      RolesOf(ps[..|ps| - 1], org) + (if p.organisation == org then [p.role] else [])
  }

  /** `provider`: the first owner, else the first publisher, else `u''`. */
  function Provider(ps: seq<Party>, inspire: bool): (r: string)
  {
    var owners, publishers := Owners(ps, inspire), Publishers(ps, inspire);
    if |owners| > 0 then owners[0] else if |publishers| > 0 then publishers[0] else ""
  }

  /** The last name of a list, or `''`: what the repeated `contact['name'] = ...` leaves. */
  function LastOr(names: seq<string>): string
  {
    if |names| == 0 then "" else names[|names| - 1]
  }

  /** A dictionary read that either finds its key or raises `KeyError(key)`. */
  datatype Result<T> = Ok(value: T) | KeyError(key: string)

  /**
   * `extras['contacts'] = [owner, publisher]` on the INSPIRE path. The two
   * e-mail keys are read without a default, `'publisher-email'` first; `None`
   * stands for a key the dictionary lacks. The owner's e-mail address goes
   * into the publisher record.
   */
  function Contacts(ps: seq<Party>, publisherEmail: Option<string>, ownerEmail: Option<string>): Result<seq<Contact>>
  {
    if publisherEmail.None? then KeyError("publisher-email")
    else if ownerEmail.None? then KeyError("owner-email")
    else
      var email := if ownerEmail.value != "" then ownerEmail.value else publisherEmail.value;
      Ok([Contact("Ansprechpartner", LastOr(Owners(ps, true)), "", "", ""),
          Contact("Veröffentlichende Stelle", LastOr(Publishers(ps, true)), "", email, "")])
  }

  /** What the INSPIRE party handling adds to the extras: `provider`, the role table and `contacts`. */
  datatype PartyExtras = PartyExtras(provider: string, parties: map<string, seq<string>>, contacts: seq<Contact>)

  // ---------------------------------------------------------------------
  // Lemmas
  // ---------------------------------------------------------------------

  /** `Owners` lists exactly the owners' organisations, and its first entry is the first owner's. */
  lemma {:induction false} OwnersFirst(ps: seq<Party>, inspire: bool)
    ensures |Owners(ps, inspire)| > 0 <==> exists i | 0 <= i < |ps| :: IsOwner(ps[i], inspire)
    ensures forall i | 0 <= i < |ps| && IsOwner(ps[i], inspire) && (forall j | 0 <= j < i :: !IsOwner(ps[j], inspire)) ::
      Owners(ps, inspire)[0] == ps[i].organisation
    decreases |ps|
  {
    if |ps| > 0 {
      var init := ps[..|ps| - 1];
      OwnersFirst(init, inspire);
      assert forall i | 0 <= i < |init| :: init[i] == ps[i];
    }
  }

  lemma {:induction false} PublishersFirst(ps: seq<Party>, inspire: bool)
    ensures |Publishers(ps, inspire)| > 0 <==> exists i | 0 <= i < |ps| :: IsPublisher(ps[i], inspire)
    ensures forall i | 0 <= i < |ps| && IsPublisher(ps[i], inspire) && (forall j | 0 <= j < i :: !IsPublisher(ps[j], inspire)) ::
      Publishers(ps, inspire)[0] == ps[i].organisation
    decreases |ps|
  {
    if |ps| > 0 {
      var init := ps[..|ps| - 1];
      PublishersFirst(init, inspire);
      assert forall i | 0 <= i < |init| :: init[i] == ps[i];
    }
  }

  /**
   * The provider is the organisation of the first owner; without an owner,
   * of the first publisher; without either, `''`.
   */
  lemma ProviderSpec(ps: seq<Party>, inspire: bool, i: nat)
    requires i < |ps|
    ensures IsOwner(ps[i], inspire) && (forall j | 0 <= j < i :: !IsOwner(ps[j], inspire))
      ==> Provider(ps, inspire) == ps[i].organisation
    ensures (forall j | 0 <= j < |ps| :: !IsOwner(ps[j], inspire))
      && IsPublisher(ps[i], inspire) && (forall j | 0 <= j < i :: !IsPublisher(ps[j], inspire))
      ==> Provider(ps, inspire) == ps[i].organisation
  {
    OwnersFirst(ps, inspire);
    PublishersFirst(ps, inspire);
  }

  lemma ProviderEmpty(ps: seq<Party>, inspire: bool)
    ensures (forall j | 0 <= j < |ps| :: !IsOwner(ps[j], inspire) && !IsPublisher(ps[j], inspire))
      <==> Provider(ps, inspire) == "" && |Owners(ps, inspire)| == 0 && |Publishers(ps, inspire)| == 0
  {
    OwnersFirst(ps, inspire);
    PublishersFirst(ps, inspire);
  }

  /** On the INSPIRE path a point of contact is an owner and so outranks any publisher. */
  lemma PointOfContactProvider(org: string, publisher: string)
    ensures Provider([Party("publisher", publisher), Party("pointOfContact", org)], true) == org
    ensures Provider([Party("publisher", publisher), Party("pointOfContact", org)], false) == publisher
  {
    var ps := [Party("publisher", publisher), Party("pointOfContact", org)];
    assert ps[..1] == [ps[0]] && ps[..1][..0] == [];
    assert Owners(ps[..1], true) == [] && Owners(ps, true) == [org];
    assert Owners(ps[..1], false) == [] && Owners(ps, false) == [];
    assert Publishers(ps[..1], false) == [publisher];
  }

  /**
   * The role table has an entry for exactly the organisations listed, and
   * each entry is the organisation's roles with repeats dropped.
   */
  lemma {:induction false} RoleTableSpec(ps: seq<Party>)
    ensures forall org :: org in RoleTable(ps) <==> exists i | 0 <= i < |ps| :: ps[i].organisation == org
    ensures forall org | org in RoleTable(ps) :: RoleTable(ps)[org] == AppendNew([], RolesOf(ps, org))
  {
    RoleTableKeys(ps);
    forall org | org in RoleTable(ps)
      ensures RoleTable(ps)[org] == AppendNew([], RolesOf(ps, org))
    {
      RoleTableEntry(ps, org);
    }
  }

  /** The role table's keys are the organisations listed. */
  lemma {:induction false} RoleTableKeys(ps: seq<Party>)
    ensures forall org :: org in RoleTable(ps) <==> exists i | 0 <= i < |ps| :: ps[i].organisation == org
    decreases |ps|
  {
    if |ps| > 0 {
      var init := ps[..|ps| - 1];
      RoleTableKeys(init);
      assert forall i | 0 <= i < |init| :: init[i] == ps[i];
    }
  }

  /** One organisation's entry is its roles with repeats dropped. */
  lemma {:induction false} RoleTableEntry(ps: seq<Party>, org: string)
    requires org in RoleTable(ps)
    ensures RoleTable(ps)[org] == AppendNew([], RolesOf(ps, org))
    decreases |ps|
  {
    var init, p := ps[..|ps| - 1], ps[|ps| - 1];
    var roles := RolesOf(init, org);
    if org == p.organisation {
      assert RolesOf(ps, org) == roles + [p.role];
      assert (roles + [p.role])[..|roles|] == roles;
      var prior := AppendNew([], roles);
      assert AppendNew([], roles + [p.role]) == if p.role in prior then prior else prior + [p.role];
      if org !in RoleTable(init) {
        RoleTableKeys(init);
        RolesOfListed(init, org);
        assert roles == [];
        assert prior == [];
      } else {
        RoleTableEntry(init, org);
      }
    } else {
      assert RolesOf(ps, org) == roles;
      RoleTableEntry(init, org);
    }
  }

  /** An organisation that is not listed has no roles. */
  lemma {:induction false} RolesOfListed(ps: seq<Party>, org: string)
    ensures RolesOf(ps, org) != [] <==> exists i | 0 <= i < |ps| :: ps[i].organisation == org
    decreases |ps|
  {
    if |ps| > 0 {
      var init := ps[..|ps| - 1];
      RolesOfListed(init, org);
      assert forall i | 0 <= i < |init| :: init[i] == ps[i];
    }
  }

  /**
   * Each organisation's role list holds its distinct roles, in the order
   * they are first seen.
   */
  lemma RolesFirstSeen(ps: seq<Party>, org: string)
    requires org in RoleTable(ps)
    ensures RoleTable(ps)[org] == FirstOccurrences([], RolesOf(ps, org))
    ensures NoDuplicates(RoleTable(ps)[org])
    ensures forall role :: role in RoleTable(ps)[org] <==> exists i | 0 <= i < |ps| :: ps[i] == Party(role, org)
  {
    RoleTableSpec(ps);
    AppendNewSpec([], RolesOf(ps, org));
    AppendNewIsFirstOccurrences([], RolesOf(ps, org));
    RolesOfMembers(ps, org);
  }

  lemma {:induction false} RolesOfMembers(ps: seq<Party>, org: string)
    ensures forall role :: role in RolesOf(ps, org) <==> exists i | 0 <= i < |ps| :: ps[i] == Party(role, org)
    decreases |ps|
  {
    if |ps| > 0 {
      var init := ps[..|ps| - 1];
      RolesOfMembers(init, org);
      assert forall i | 0 <= i < |init| :: init[i] == ps[i];
    }
  }

  /**
   * The contact records: a missing `'publisher-email'` raises, then a missing
   * `'owner-email'`, and nothing else does. Otherwise the owner record is
   * named after the last owner and never carries an e-mail address; the
   * publisher record is named after the last publisher and carries the
   * owner's address when there is one.
   */
  lemma ContactsSpec(ps: seq<Party>, publisherEmail: Option<string>, ownerEmail: Option<string>)
    ensures var r := Contacts(ps, publisherEmail, ownerEmail);
      && (r.KeyError? <==> publisherEmail.None? || ownerEmail.None?)
      && (publisherEmail.None? ==> r == KeyError("publisher-email"))
      && (publisherEmail.Some? && ownerEmail.None? ==> r == KeyError("owner-email"))
    ensures publisherEmail.Some? && ownerEmail.Some? ==>
      var c := Contacts(ps, publisherEmail, ownerEmail).value;
      && |c| == 2
      && c[0].email == ""
      && (ownerEmail.value != "" ==> c[1].email == ownerEmail.value)
      && (ownerEmail.value == "" ==> c[1].email == publisherEmail.value)
      && (|Owners(ps, true)| > 0 ==> c[0].name == Owners(ps, true)[|Owners(ps, true)| - 1])
      && (|Owners(ps, true)| == 0 ==> c[0].name == "")
      && (|Publishers(ps, true)| > 0 ==> c[1].name == Publishers(ps, true)[|Publishers(ps, true)| - 1])
      && (|Publishers(ps, true)| == 0 ==> c[1].name == "")
  {
  }

  /** With an owner but no publisher, the publisher record still gets the owner's address. */
  lemma OwnerEmailMisplaced(owner: string, ownerEmail: string)
    requires ownerEmail != ""
    ensures Contacts([Party("owner", owner)], Some(""), Some(ownerEmail))
      == Ok([Contact("Ansprechpartner", owner, "", "", ""), Contact("Veröffentlichende Stelle", "", "", ownerEmail, "")])
  {
    var ps := [Party("owner", owner)];
    assert ps[..0] == [];
  }

  // ---------------------------------------------------------------------
  // The loop
  // ---------------------------------------------------------------------

  lemma PartiesStep(ps: seq<Party>, i: nat, inspire: bool)
    requires i < |ps|
    ensures var p, pre := ps[i], ps[..i];
      && Owners(ps[..i + 1], inspire) == Owners(pre, inspire) + (if IsOwner(p, inspire) then [p.organisation] else [])
      && Publishers(ps[..i + 1], inspire) == Publishers(pre, inspire) + (if IsPublisher(p, inspire) then [p.organisation] else [])
      && RoleTable(ps[..i + 1]) == AddRole(RoleTable(pre), p)
  {
    assert ps[..i + 1][..i] == ps[..i];
  }

  /**
   * The loop over `responsible-organisation`: `owners`, `publishers`, the
   * role table and, for the contact records, the last owner and the last
   * publisher seen.
   */
  method CollectParties(ps: seq<Party>, inspire: bool)
    returns (owners: seq<string>, publishers: seq<string>, parties: map<string, seq<string>>,
             ownerName: string, publisherName: string)
    ensures owners == Owners(ps, inspire) && publishers == Publishers(ps, inspire)
    ensures parties == RoleTable(ps)
    ensures ownerName == LastOr(owners) && publisherName == LastOr(publishers)
  {
    owners, publishers, parties := [], [], map[];
    ownerName, publisherName := "", "";
    var i := 0;
    while i < |ps|
      invariant 0 <= i <= |ps|
      invariant owners == Owners(ps[..i], inspire) && publishers == Publishers(ps[..i], inspire)
      invariant parties == RoleTable(ps[..i])
      invariant ownerName == LastOr(owners) && publisherName == LastOr(publishers)
    {
      PartiesStep(ps, i, inspire);
      var p := ps[i];
      if IsOwner(p, inspire) {
        owners := owners + [p.organisation];
        ownerName := p.organisation;
      } else if p.role == "publisher" {
        publishers := publishers + [p.organisation];
        publisherName := p.organisation;
      }
      if p.organisation in parties {
        if p.role !in parties[p.organisation] {
          parties := parties[p.organisation := parties[p.organisation] + [p.role]];
        }
      } else {
        parties := parties[p.organisation := [p.role]];
      }
      i := i + 1;
    }
    assert ps[..|ps|] == ps;
  }

  /** The provider choice after the loop. */
  method ChooseProvider(owners: seq<string>, publishers: seq<string>) returns (provider: string)
    ensures |owners| > 0 ==> provider == owners[0]
    ensures |owners| == 0 && |publishers| > 0 ==> provider == publishers[0]
    ensures |owners| == 0 && |publishers| == 0 ==> provider == ""
  {
    if |owners| > 0 {
      provider := owners[0];
    } else if |publishers| > 0 {
      provider := publishers[0];
    } else {
      provider := "";
    }
  }

  /**
   * The INSPIRE path: the two e-mail reads, the loop, the provider and the
   * contact records; a missing e-mail key raises before the loop.
   */
  method InspireParties(ps: seq<Party>, publisherEmail: Option<string>, ownerEmail: Option<string>)
    returns (r: Result<PartyExtras>)
    ensures r.KeyError? <==> Contacts(ps, publisherEmail, ownerEmail).KeyError?
    ensures r.KeyError? ==> r.key == Contacts(ps, publisherEmail, ownerEmail).key
    ensures r.Ok? ==> r.value == PartyExtras(Provider(ps, true), RoleTable(ps), Contacts(ps, publisherEmail, ownerEmail).value)
  {
    var publisher := Contact("Veröffentlichende Stelle", "", "", "", "");
    var owner := Contact("Ansprechpartner", "", "", "", "");
    if publisherEmail.None? {
      return KeyError("publisher-email");
    }
    if publisherEmail.value != "" {
      publisher := publisher.(email := publisherEmail.value);
    }
    if ownerEmail.None? {
      return KeyError("owner-email");
    }
    if ownerEmail.value != "" {
      publisher := publisher.(email := ownerEmail.value);
    }
    var owners, publishers, parties, ownerName, publisherName := CollectParties(ps, true);
    owner := owner.(name := ownerName);
    publisher := publisher.(name := publisherName);
    var contacts := [owner, publisher];
    var provider := ChooseProvider(owners, publishers);
    r := Ok(PartyExtras(provider, parties, contacts));
  }
}
