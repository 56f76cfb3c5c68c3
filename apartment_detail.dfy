/**
 * An apartment's page: the amenity list typed as comma-separated text and
 * stored as a list, the tenants that can be assigned, the unit counts, and
 * the defaults of its forms.
 */
module ApartmentDetail {
  import opened Js
  import opened Records

  // ---------------------------------------------------------------- amenities

  /** `pieces.map(a => a.trim())` */
  function TrimAll(pieces: seq<string>): (r: seq<string>)
    ensures |r| == |pieces|
  {
    seq(|pieces|, i requires 0 <= i < |pieces| => Trim(pieces[i]))
  }

  predicate NonEmptyText(a: string) {
    a != ""
  }

  /** The amenities sent on submit: split on ',', trim each piece, drop the empty ones. */
  function ParseAmenities(text: string): seq<string> {
    Where(TrimAll(Split(text, ',')), NonEmptyText)
  }

  /** The amenities shown for editing: the stored list joined with ', ', or '' when there is none. */
  function JoinAmenities(amenities: Option<seq<string>>): (r: string)
    ensures amenities.None? ==> r == ""
  {
    if amenities.Some? then Join(amenities.value, ", ") else ""
  }

  /** An amenity as the parser produces it: non-empty, without surrounding spaces or commas. */
  predicate Clean(a: string) {
    a != "" && IsTrimmed(a) && ',' !in a
  }

  /** Trimming never introduces a character. */
  lemma TrimKeepsOut(s: string, c: char)
    requires c !in s
    ensures c !in Trim(s)
  {
    var t := TrimStart(s);
    assert t == s[|s| - |t|..];
    assert Trim(s) == t[..|Trim(s)|];
  }

  /** Trimmed, with no comma: what a trimmed piece of the split text is. */
  predicate TrimmedPiece(a: string) {
    IsTrimmed(a) && ',' !in a
  }

  lemma PieceIsTrimmed(piece: string)
    requires ',' !in piece
    ensures TrimmedPiece(Trim(piece))
  {
    TrimIsTrimmed(piece);
    TrimKeepsOut(piece, ',');
  }

  /** Every parsed amenity is clean. */
  lemma ParsedAreClean(text: string)
    ensures var r := ParseAmenities(text); forall i :: 0 <= i < |r| ==> Clean(r[i])
  {
    var pieces := Split(text, ',');
    var trimmed := TrimAll(pieces);
    forall i | 0 <= i < |trimmed|
      ensures TrimmedPiece(trimmed[i])
    {
      PieceIsTrimmed(pieces[i]);
    }
    WherePreserves(trimmed, NonEmptyText, TrimmedPiece);
  }

  /** Each piece after the first, with the space the separator leaves in front. */
  function Spaced(xs: seq<string>): (r: seq<string>)
    ensures |r| == |xs|
  {
    if xs == [] then [] else [[' '] + xs[0]] + Spaced(xs[1..])
  }

  lemma {:induction false} SplitJoined(xs: seq<string>)
    requires |xs| >= 1
    requires forall i :: 0 <= i < |xs| ==> ',' !in xs[i]
    ensures Split(Join(xs, ", "), ',') == [xs[0]] + Spaced(xs[1..])
    decreases |xs|
  {
    if |xs| == 1 {
      SplitNoSeparator(xs[0], ',');
    } else {
      var rest := Join(xs[1..], ", ");
      assert Join(xs, ", ") == xs[0] + [','] + ([' '] + rest);
      SplitConcat(xs[0], ',', [' '] + rest);
      SplitJoined(xs[1..]);
      assert ([' '] + rest)[1..] == rest;
      assert Split([' '] + rest, ',') == [[' '] + xs[1]] + Spaced(xs[2..]);
    }
  }

  lemma {:induction false} SpacedAt(xs: seq<string>, i: nat)
    requires i < |xs|
    ensures Spaced(xs)[i] == [' '] + xs[i]
  {
    if i > 0 {
      SpacedAt(xs[1..], i - 1);
    }
  }

  /** The pieces of joined clean amenities trim back to the amenities. */
  lemma TrimJoinedPieces(xs: seq<string>)
    requires |xs| >= 1
    requires forall i :: 0 <= i < |xs| ==> Clean(xs[i])
    ensures TrimAll([xs[0]] + Spaced(xs[1..])) == xs
  {
    var pieces := [xs[0]] + Spaced(xs[1..]);
    forall i | 0 <= i < |pieces|
      ensures TrimAll(pieces)[i] == xs[i]
    {
      if i == 0 {
        TrimOfTrimmed(xs[0]);
      } else {
        SpacedAt(xs[1..], i - 1);
        assert pieces[i] == [' '] + xs[i];
        TrimLeadingSpace(xs[i]);
      }
    }
  }

  /** Round trip: parsing the joined text of clean amenities gives them back exactly. */
  lemma ParseJoin(xs: seq<string>)
    requires forall i :: 0 <= i < |xs| ==> Clean(xs[i])
    ensures ParseAmenities(JoinAmenities(Some(xs))) == xs
  {
    if xs == [] {
      assert Split("", ',') == [""];
    } else {
      SplitJoined(xs);
      TrimJoinedPieces(xs);
      WhereAll(xs, NonEmptyText);
    }
  }

  /** Editing and saving again changes nothing: parsing is idempotent through the join. */
  lemma ParseIdempotent(text: string)
    ensures ParseAmenities(JoinAmenities(Some(ParseAmenities(text)))) == ParseAmenities(text)
  {
    var r := ParseAmenities(text);
    ParsedAreClean(text);
    ParseJoin(r);
  }

  // ---------------------------------------------------------------- tenants and units

  /** A tenant can be assigned when its status, lowercased, is 'active'; a missing status counts as ''. */
  predicate Assignable(t: Tenant) {
    Lower(if t.status.Some? then t.status.value else "") == "active"
  }

  /** The tenants offered for assignment. */
  function AssignableTenants(tenants: seq<Tenant>): seq<Tenant> {
    Where(tenants, Assignable)
  }

  /** A tenant is offered exactly when it is listed and active in any letter case; one without a status never is. */
  lemma AssignableIff(tenants: seq<Tenant>, t: Tenant)
    ensures t in AssignableTenants(tenants) <==> t in tenants && Assignable(t)
    ensures t.status.None? ==> t !in AssignableTenants(tenants)
  {
    WhereMembership(tenants, Assignable, t);
    if t.status.None? {
      assert |Lower("")| == 0;
    }
  }

  /** The unit counts of the stats bar. */
  datatype UnitCounts = UnitCounts(total: int, occupied: nat, available: nat, maintenance: nat)

  /** `totalHouses` is the apartment's own figure when it has one, else the number of units listed. */
  function Counts(totalHouses: int, houses: seq<House>): (r: UnitCounts)
    ensures r.occupied + r.available + r.maintenance <= |houses|
    ensures totalHouses != 0 ==> r.total == totalHouses
    ensures totalHouses == 0 ==> r.total == |houses|
  {
    CountDisjoint3(houses, IsOccupied, IsAvailable, IsUnderMaintenance);
    UnitCounts(OrAmount(totalHouses, |houses|), Count(houses, IsOccupied), Count(houses, IsAvailable),
               Count(houses, IsUnderMaintenance))
  }

  // ---------------------------------------------------------------- forms

  datatype Apartment = Apartment(name: Option<string>, address: Option<string>, description: Option<string>, manager: JsVal)

  datatype ApartmentForm = ApartmentForm(name: string, address: string, description: string, manager: JsVal)

  /** `{ name: '', phone: '', email: '' }` */
  function EmptyManager(): JsVal {
    Obj(map["name" := Str(""), "phone" := Str(""), "email" := Str("")])
  }

  function OrEmpty(s: Option<string>): string {
    if s.Some? then s.value else ""
  }

  /** `handleEditApartment`: each missing text becomes '', a missing manager an empty one. */
  function EditApartmentForm(a: Apartment): (r: ApartmentForm)
    ensures a.name.None? ==> r.name == ""
    ensures a.address.None? ==> r.address == ""
    ensures a.description.None? ==> r.description == ""
    ensures !Truthy(a.manager) ==> r.manager == EmptyManager()
    ensures Truthy(a.manager) ==> r.manager == a.manager
  {
    ApartmentForm(OrEmpty(a.name), OrEmpty(a.address), OrEmpty(a.description), Or(a.manager, EmptyManager()))
  }

  /** The unit form: `rentAmount` holds the number as entered, `amenities` the comma-separated text. */
  datatype HouseForm = HouseForm(houseNumber: string, rentAmount: int, status: string, description: string, amenities: string)

  /** `resetHouseForm` */
  function EmptyHouseForm(): HouseForm {
    HouseForm("", 0, "available", "", "")
  }

  /** `handleEditHouse` */
  function EditHouseForm(h: House): (r: HouseForm)
    ensures r.houseNumber == h.houseNumber && r.rentAmount == h.rentAmount && r.status == h.status
    ensures r.description == OrEmpty(h.description)
  {
    HouseForm(h.houseNumber, h.rentAmount, h.status, OrEmpty(h.description), JoinAmenities(h.amenities))
  }

  /** What `handleHouseSubmit` sends: the form, the apartment's id, and the amenity list. */
  datatype HousePayload = HousePayload(houseNumber: string, rentAmount: int, status: string, description: string,
                                       amenities: seq<string>, apartment: string)

  function HouseSubmit(form: HouseForm, apartmentId: string): (r: HousePayload)
    ensures r.apartment == apartmentId && r.houseNumber == form.houseNumber && r.status == form.status
    ensures r.rentAmount == form.rentAmount && r.description == form.description
    ensures r.amenities == ParseAmenities(form.amenities)
    ensures forall i :: 0 <= i < |r.amenities| ==> Clean(r.amenities[i])
  {
    ParsedAreClean(form.amenities);
    HousePayload(form.houseNumber, form.rentAmount, form.status, form.description, ParseAmenities(form.amenities), apartmentId)
  }

  /** Opening a unit for editing and saving it unchanged sends back its own clean amenity list. */
  lemma EditThenSubmitKeepsAmenities(h: House, apartmentId: string)
    requires h.amenities.Some? && forall i :: 0 <= i < |h.amenities.value| ==> Clean(h.amenities.value[i])
    ensures HouseSubmit(EditHouseForm(h), apartmentId).amenities == h.amenities.value
  {
    ParseJoin(h.amenities.value);
  }

  /** `getStatusColor` for units. */
  function UnitStatusColor(status: string): (r: string)
    ensures status !in {"available", "occupied", "maintenance"} ==> r == "#94a3b8"
  {
    match status
    case "available" => "#16a34a"
    case "occupied" => "#dc2626"
    case "maintenance" => "#f59e0b"
    case _ => "#94a3b8"
  }
}
