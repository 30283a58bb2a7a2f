/** `BarberController`: the barber directory's listings, its idempotent create, partial update,
    soft delete, and the quote escaping of the SQL text the create builds. */
module Barbers {
  import opened Wrappers
  import opened Entities
  import opened Seqs

  /** `UpdateBarberRequest`: each field is applied only when present. */
  datatype UpdateBarberRequest = UpdateBarberRequest(
    bio: Option<string>,
    specialties: Option<seq<string>>,
    active: Option<bool>)

  datatype BarberError = BarberNotFound

  function IsActive(): Barber -> bool
  {
    (b: Barber) => b.active
  }

  /** `findByActiveTrue`, behind the public listing: the active barbers in table order. */
  function ListActive(barbers: seq<Barber>): (r: seq<Barber>)
    ensures forall b :: b in r <==> b in barbers && b.active
    ensures IsSubsequence(r, barbers)
  {
    FilterIsSubsequence(barbers, IsActive());
    Filter(barbers, IsActive())
  }

  /** `findAll`, behind the admin listing: every barber, active or not. */
  function ListForAdmin(barbers: seq<Barber>): seq<Barber>
  {
    barbers
  }

  /** The public listing is the admin listing without the deactivated barbers. */
  lemma PublicListingWithinAdminListing(barbers: seq<Barber>)
    ensures IsSubsequence(ListActive(barbers), ListForAdmin(barbers))
    ensures forall b :: b in ListForAdmin(barbers) && !b.active ==> b !in ListActive(barbers)
    ensures forall b :: b in ListForAdmin(barbers) && b.active ==> b in ListActive(barbers)
  {
  }

  /** `findById`: the position of the barber with this table id, if any. */
  function FindIndex(barbers: seq<Barber>, id: Id): Option<nat>
  {
    FirstIndex(barbers, (b: Barber) => b.id, id)
  }

  /** `findById`, returning the record. */
  function FindBarber(barbers: seq<Barber>, id: Id): (r: Option<Barber>)
    ensures r.Some? ==> r.value in barbers && r.value.id == id
    ensures r.None? <==> forall b :: b in barbers ==> b.id != id
  {
    match FindIndex(barbers, id)
    case None => None
    case Some(i) => Some(barbers[i])
  }

  /** `findByUserId`. */
  function FindByUserId(barbers: seq<Barber>, userId: Id): (r: Option<Barber>)
    ensures r.Some? ==> r.value in barbers && r.value.userId == userId
    ensures r.None? <==> forall b :: b in barbers ==> b.userId != userId
    decreases |barbers|
  {
    if barbers == [] then None
    else if barbers[0].userId == userId then Some(barbers[0])
    else FindByUserId(barbers[1..], userId)
  }

  /** `s.replace("'", "''")`: every single quote doubled, every other character kept. */
  function EscapeQuotes(s: string): (r: string)
    ensures |r| >= |s|
    decreases |s|
  {
    if s == [] then []
    else (if s[0] == '\'' then "''" else [s[0]]) + EscapeQuotes(s[1..])
  }

  /** The SQL string literal the insert writes for a text value. */
  function SqlLiteral(s: string): string
  {
    "'" + EscapeQuotes(s) + "'"
  }

  /** How the database reads the rest of a string literal after its opening quote:
      `''` stands for one quote, a lone quote closes the literal and must be last. */
  function ReadLiteralBody(s: string): Option<string>
    decreases |s|
  {
    if s == [] then None
    else if s[0] == '\'' then
      if |s| == 1 then Some([])
      else if s[1] == '\'' then
        match ReadLiteralBody(s[2..])
        case None => None
        case Some(t) => Some(['\''] + t)
      else None
    else
      match ReadLiteralBody(s[1..])
      case None => None
      case Some(t) => Some([s[0]] + t)
  }

  /** The text a SQL string literal denotes, if it is one. */
  function ParseSqlLiteral(s: string): Option<string>
  {
    if s != [] && s[0] == '\'' then ReadLiteralBody(s[1..]) else None
  }

  lemma {:induction false} ReadEscapedBody(s: string)
    ensures ReadLiteralBody(EscapeQuotes(s) + "'") == Some(s)
    decreases |s|
  {
    if s == [] {
      assert EscapeQuotes(s) + "'" == "'";
    } else {
      ReadEscapedBody(s[1..]);
      var tail := EscapeQuotes(s[1..]) + "'";
      if s[0] == '\'' {
        assert EscapeQuotes(s) + "'" == "''" + tail;
        assert ("''" + tail)[2..] == tail;
      } else {
        assert EscapeQuotes(s) + "'" == [s[0]] + tail;
        assert ([s[0]] + tail)[1..] == tail;
      }
      assert s == [s[0]] + s[1..];
    }
  }

  /** Escaping is sound: the literal the insert builds denotes exactly the original text,
      whatever quotes it contains. */
  lemma SqlLiteralRoundTrip(s: string)
    ensures ParseSqlLiteral(SqlLiteral(s)) == Some(s)
  {
    ReadEscapedBody(s);
    assert SqlLiteral(s)[1..] == EscapeQuotes(s) + "'";
  }

  /** Text without quotes is written unchanged. */
  lemma {:induction false} EscapeWithoutQuotesIsIdentity(s: string)
    requires forall i :: 0 <= i < |s| ==> s[i] != '\''
    ensures EscapeQuotes(s) == s
    decreases |s|
  {
    if s != [] {
      EscapeWithoutQuotesIsIdentity(s[1..]);
      assert s == [s[0]] + s[1..];
    }
  }

  /** The elements of the `ARRAY[...]` literal, each escaped like the bio. */
  function SqlLiterals(items: seq<string>): (r: seq<string>)
    ensures |r| == |items|
    decreases |items|
  {
    if items == [] then [] else [SqlLiteral(items[0])] + SqlLiterals(items[1..])
  }

  /** How the database reads a list of string literals. */
  function ParseSqlLiterals(lits: seq<string>): Option<seq<string>>
    decreases |lits|
  {
    if lits == [] then Some([])
    else match (ParseSqlLiteral(lits[0]), ParseSqlLiterals(lits[1..]))
      case (Some(h), Some(t)) => Some([h] + t)
      case _ => None
  }

  lemma {:induction false} SqlLiteralsRoundTrip(items: seq<string>)
    ensures ParseSqlLiterals(SqlLiterals(items)) == Some(items)
    decreases |items|
  {
    if items != [] {
      SqlLiteralRoundTrip(items[0]);
      SqlLiteralsRoundTrip(items[1..]);
      assert SqlLiterals(items)[1..] == SqlLiterals(items[1..]);
      assert items == [items[0]] + items[1..];
    }
  }

  /** What the insert stores for an optional text: the parsed literal, or NULL. */
  function StoredText(value: Option<string>): Option<string>
  {
    match value
    case None => None
    case Some(s) => ParseSqlLiteral(SqlLiteral(s))
  }

  /** What the insert stores for the specialties: NULL when absent or empty, otherwise the parsed array. */
  function StoredSpecialties(specialties: Option<seq<string>>): Option<seq<string>>
  {
    match specialties
    case None => None
    case Some(items) => if |items| == 0 then None else ParseSqlLiterals(SqlLiterals(items))
  }

  /** The fields of a barber after `updateBarber` applies a request. */
  function ApplyUpdate(b: Barber, req: UpdateBarberRequest): (r: Barber)
    ensures r.id == b.id && r.userId == b.userId && r.rating == b.rating
  {
    b.(bio := if req.bio.Some? then req.bio else b.bio,
       specialties := if req.specialties.Some? then req.specialties else b.specialties,
       active := if req.active.Some? then req.active.value else b.active)
  }

  /** A request that carries no field changes nothing. */
  lemma EmptyUpdateIsIdentity(b: Barber)
    ensures ApplyUpdate(b, UpdateBarberRequest(None, None, None)) == b
  {
  }

  /** Applying the same update twice is the same as applying it once. */
  lemma UpdateIsIdempotent(b: Barber, req: UpdateBarberRequest)
    ensures ApplyUpdate(ApplyUpdate(b, req), req) == ApplyUpdate(b, req)
  {
  }

  /** Each field given in the request is written; each field left out keeps its old value. */
  lemma UpdateWritesExactlyTheGivenFields(b: Barber, req: UpdateBarberRequest)
    ensures req.bio.Some? ==> ApplyUpdate(b, req).bio == req.bio
    ensures req.bio.None? ==> ApplyUpdate(b, req).bio == b.bio
    ensures req.specialties.Some? ==> ApplyUpdate(b, req).specialties == req.specialties
    ensures req.specialties.None? ==> ApplyUpdate(b, req).specialties == b.specialties
    ensures req.active.Some? ==> ApplyUpdate(b, req).active == req.active.value
    ensures req.active.None? ==> ApplyUpdate(b, req).active == b.active
  {
  }

  /** The soft delete. */
  function Deactivated(b: Barber): Barber
  {
    b.(active := false)
  }

  /** Deactivating twice is deactivating once, and a deactivated barber leaves the public listing. */
  lemma DeactivateIsIdempotent(barbers: seq<Barber>, i: nat)
    requires i < |barbers|
    ensures Deactivated(Deactivated(barbers[i])) == Deactivated(barbers[i])
    ensures barbers[i := Deactivated(barbers[i])][i := Deactivated(Deactivated(barbers[i]))] == barbers[i := Deactivated(barbers[i])]
    ensures Deactivated(barbers[i]) !in ListActive(barbers[i := Deactivated(barbers[i])])
  {
  }

  /** The barber table the controller works on. */
  class BarberDirectory {
    var barbers: seq<Barber>
    var nextId: nat

    /** Table ids are below `nextId` and distinct, and each user has at most one barber record
        (the `unique` constraint on `user_id`). */
    ghost predicate Valid()
      reads this
    {
      && (forall i :: 0 <= i < |barbers| ==> barbers[i].id < nextId)
      && (forall i, j :: 0 <= i < j < |barbers| ==> barbers[i].id != barbers[j].id)
      && (forall i, j :: 0 <= i < j < |barbers| ==> barbers[i].userId != barbers[j].userId)
    }

    constructor ()
      ensures Valid() && barbers == []
    {
      barbers := [];
      nextId := 0;
    }

    /** `getAllBarbers`: the active barbers. */
    method GetAllBarbers() returns (r: seq<Barber>)
      ensures forall b :: b in r <==> b in barbers && b.active
      ensures IsSubsequence(r, barbers)
    {
      r := ListActive(barbers);
    }

    /** `createBarber`: returns the user's existing barber untouched, or inserts a new active barber
        with rating 0 whose bio and specialties are what the escaped SQL literals denote. */
    method CreateBarber(userId: Id, bio: Option<string>, specialties: Option<seq<string>>) returns (r: Barber, created: bool)
      requires Valid()
      modifies this
      ensures Valid()
      ensures created <==> FindByUserId(old(barbers), userId).None?
      ensures !created ==> Some(r) == FindByUserId(old(barbers), userId) && barbers == old(barbers) && nextId == old(nextId)
      ensures created ==> r.id == old(nextId) && r.userId == userId && r.active && r.rating == DefaultRating
      ensures created ==> r.bio == bio
      ensures created ==> r.specialties == (if specialties == Some([]) then None else specialties)
      ensures created ==> barbers == old(barbers) + [r] && nextId == old(nextId) + 1
    {
      var existing := FindByUserId(barbers, userId);
      if existing.Some? {
        return existing.value, false;
      }
      var storedBio := StoredText(bio);
      if bio.Some? {
        SqlLiteralRoundTrip(bio.value);
      }
      var storedSpecialties := StoredSpecialties(specialties);
      if specialties.Some? {
        SqlLiteralsRoundTrip(specialties.value);
      }
      r := Barber(nextId, userId, storedSpecialties, storedBio, DefaultRating, true);
      barbers := barbers + [r];
      nextId := nextId + 1;
      created := true;
    }

    /** `updateBarber`: fails for an unknown id, otherwise overwrites only the given fields. */
    method UpdateBarber(id: Id, req: UpdateBarberRequest) returns (r: Result<Barber, BarberError>)
      requires Valid()
      modifies this
      ensures Valid() && nextId == old(nextId)
      ensures FindIndex(old(barbers), id).None? ==> r == Err(BarberNotFound) && barbers == old(barbers)
      ensures FindIndex(old(barbers), id).Some? ==>
        var i := FindIndex(old(barbers), id).value;
        r == Ok(ApplyUpdate(old(barbers)[i], req)) && barbers == old(barbers)[i := r.value]
    {
      var found := FindIndex(barbers, id);
      if found.None? {
        return Err(BarberNotFound);
      }
      var i := found.value;
      var barber := barbers[i];
      if req.bio.Some? {
        barber := barber.(bio := req.bio);
      }
      if req.specialties.Some? {
        barber := barber.(specialties := req.specialties);
      }
      if req.active.Some? {
        barber := barber.(active := req.active.value);
      }
      barbers := barbers[i := barber];
      r := Ok(barber);
    }

    /** `deleteBarber`: fails for an unknown id, otherwise clears `active` and keeps the record. */
    method DeleteBarber(id: Id) returns (r: Outcome<BarberError>)
      requires Valid()
      modifies this
      ensures Valid() && nextId == old(nextId) && |barbers| == |old(barbers)|
      ensures FindIndex(old(barbers), id).None? ==> r == Fail(BarberNotFound) && barbers == old(barbers)
      ensures FindIndex(old(barbers), id).Some? ==>
        var i := FindIndex(old(barbers), id).value;
        r == Pass && barbers == old(barbers)[i := Deactivated(old(barbers)[i])]
    {
      var found := FindIndex(barbers, id);
      if found.None? {
        return Fail(BarberNotFound);
      }
      var i := found.value;
      barbers := barbers[i := barbers[i].(active := false)];
      r := Pass;
    }
  }
}
