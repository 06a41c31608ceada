/**
 * The C-like form of the API's tagged unions. Each union is a struct that
 * holds a case tag and a C `union` of payloads; its constructors, copy
 * constructor and assignment clear the whole struct and then write the tag
 * and one payload in place, and `from_json` overwrites the struct it is
 * handed.
 *
 * The records of the C-like header declare the same fields and keys as
 * the `std::variant` form, so they are the `Types` datatypes here. The
 * union member last written is represented by the `Types` value of the
 * same family: its constructor names the member and carries the payload.
 *
 * A payload record that holds another tagged struct is copied through that
 * struct's `operator=`, which throws "Invalid default variant!" when the
 * inner struct holds `Invalid`. So a payload can be stored only when every
 * tagged struct inside it has a case.
 */
module TypesCLike {
  import opened Wrappers
  import opened Json
  import opened Codec

  /** The protocol version of the C-like header. */
  const VERSION: u64 := 22

  const UpgradeU0: u32 := 0
  const UpgradeU1: u32 := 1000000
  const UpgradeU2: u32 := 2000000
  const UpgradeU3: u32 := 3000000

  /**
   * What the header spells out for one family. Case `k` (from 1) travels
   * under `labels[k - 1]`; case 0 is `Invalid`. `caseOf` tells which case a
   * union value holds, `zero` is the union after `memset`, `assignable`
   * tells whether copying a value throws nowhere (every tagged struct inside
   * it has a case), `payloadToJson` encodes the active member and
   * `decodeCase(k, p)` is `p.get<Payload_k>()` stored into the union.
   * `toJson` and `fromJson` are the codec of the same family in the
   * `std::variant` form.
   */
  datatype Family<!U> = Family(
    labels: seq<string>,
    caseOf: U -> nat,
    zero: U,
    assignable: U -> bool,
    payloadToJson: U -> Outcome<Json>,
    decodeCase: (nat, Json) -> Outcome<U>,
    toJson: U -> Outcome<Json>,
    fromJson: (Json, U) -> Outcome<U>)

  /**
   * What `from_json` does with `j` when the struct holds `prior`: no items
   * is an error, an unknown first key keeps `prior`, and a known one decodes
   * that case's payload.
   */
  function Decode<U>(f: Family<U>, j: Json, prior: U): Outcome<U>
  {
    match Select(f.labels, j)
    case NoItems => Err(InvalidJson)
    case Unlabelled => Ok(prior)
    case Selected(k, payload) => f.decodeCase(k, payload)
  }

  /**
   * What storing the `std::variant` decoder's outcome `o` for `j` leaves in
   * the C-like struct: a selected payload that cannot be copied fails with
   * "Invalid default variant!"; anything else is `o` itself. An unknown
   * first key stores nothing, so it keeps even a value that cannot be
   * copied.
   */
  function Stored<U>(f: Family<U>, j: Json, o: Outcome<U>): Outcome<U>
  {
    if Select(f.labels, j).Selected? && o.Ok? && !f.assignable(o.value) then Err(InvalidDefaultVariant) else o
  }

  /**
   * The facts the header's code relies on: distinct labels, a zeroed union
   * that holds `Invalid`, payload decoders that produce their own case, and
   * the same encoding as the `std::variant` form, which writes only values
   * that can be copied and reads back what it writes, and the same decoding
   * except where the decoded payload cannot be stored.
   */
  ghost predicate Lawful<U(!new)>(f: Family<U>)
  {
    && Distinct(f.labels)
    && f.caseOf(f.zero) == 0
    && (forall u :: f.caseOf(u) <= |f.labels|)
    && (forall k: nat, payload :: 1 <= k <= |f.labels| && f.decodeCase(k, payload).Ok? ==>
          f.caseOf(f.decodeCase(k, payload).value) == k && f.assignable(f.decodeCase(k, payload).value))
    && (forall u :: f.caseOf(u) == 0 ==> f.toJson(u) == Err(InvalidDefaultVariant))
    && (forall u :: f.caseOf(u) != 0 && f.payloadToJson(u).Err? ==> f.toJson(u) == Err(f.payloadToJson(u).error))
    && (forall u :: f.caseOf(u) != 0 && f.payloadToJson(u).Ok? ==>
          f.toJson(u) == Ok(Obj([(f.labels[f.caseOf(u) - 1], f.payloadToJson(u).value)])))
    && (forall u :: f.toJson(u).Ok? ==> f.assignable(u))
    && (forall j, prior :: Decode(f, j, prior) == Stored(f, j, f.fromJson(j, prior)))
    && (forall u, prior :: f.toJson(u).Ok? ==> f.fromJson(f.toJson(u).value, prior) == Ok(u))
  }

  /**
   * The object written for a value is read back as the same case with the
   * same payload, whatever the struct held before.
   */
  lemma EncodedSelectsCase<U(!new)>(f: Family<U>, u: U)
    requires Lawful(f) && f.toJson(u).Ok?
    ensures var s := Select(f.labels, f.toJson(u).value);
      && s.Selected?
      && s.index == f.caseOf(u)
      && f.decodeCase(s.index, s.payload) == Ok(u)
  {
    var k := f.caseOf(u);
    assert k != 0;
    var p := f.payloadToJson(u).value;
    SelectEncoded(f.labels, k, p);
    assert f.fromJson(f.toJson(u).value, u) == Ok(u);
    assert f.assignable(u);
  }

  /** A tagged struct of one family. */
  class Tagged<U(!new)> {
    const family: Family<U>
    var variantCase: nat
    var variantUnion: U

    /**
     * The tag names the union member that was written last, and that member
     * could be copied in: every tagged struct inside it has a case.
     */
    ghost predicate Valid()
      reads this
    {
      && family.caseOf(variantUnion) == variantCase
      && (variantCase != 0 ==> family.assignable(variantUnion))
    }

    /** The default constructor: the struct is cleared and holds `Invalid`. */
    constructor Default(family: Family<U>)
      ensures this.family == family
      ensures variantCase == 0 && variantUnion == family.zero
    {
      this.family := family;
      variantCase := 0;
      variantUnion := family.zero;
    }

    /**
     * A payload constructor: a fresh struct holding that payload's case, or
     * "Invalid default variant!" when a tagged struct inside the payload
     * holds `Invalid`, since the payload is copied in.
     */
    static method Of(family: Family<U>, payload: U) returns (r: Outcome<Tagged<U>>)
      requires 1 <= family.caseOf(payload) <= |family.labels|
      ensures !family.assignable(payload) ==> r == Err(InvalidDefaultVariant)
      ensures family.assignable(payload) ==>
        && r.Ok? && fresh(r.value)
        && r.value.family == family
        && r.value.variantCase == family.caseOf(payload) && r.value.variantUnion == payload
        && r.value.Valid()
    {
      var t := new Tagged.Default(family);
      t.variantCase := family.caseOf(payload);
      if !family.assignable(payload) {
        return Err(InvalidDefaultVariant);
      }
      t.variantUnion := payload;
      return Ok(t);
    }

    /**
     * The copy constructor: a fresh struct with the same case and payload,
     * or an error when the source holds `Invalid` or an unknown case, or
     * its payload holds a tagged struct that holds `Invalid`.
     */
    static method Copy(other: Tagged<U>) returns (r: Outcome<Tagged<U>>)
      ensures other.variantCase == 0 ==> r == Err(InvalidDefaultVariant)
      ensures other.variantCase > |other.family.labels| ==> r == Err(InvalidVariant)
      ensures 1 <= other.variantCase <= |other.family.labels| && !other.family.assignable(other.variantUnion) ==>
        r == Err(InvalidDefaultVariant)
      ensures 1 <= other.variantCase <= |other.family.labels| && other.family.assignable(other.variantUnion) ==>
        && r.Ok? && fresh(r.value)
        && r.value.family == other.family
        && r.value.variantCase == other.variantCase
        && r.value.variantUnion == other.variantUnion
    {
      var t := new Tagged.Default(other.family);
      t.variantCase := other.variantCase;
      if t.variantCase == 0 {
        return Err(InvalidDefaultVariant);
      } else if t.variantCase <= |other.family.labels| {
        if !other.family.assignable(other.variantUnion) {
          return Err(InvalidDefaultVariant);
        }
        t.variantUnion := other.variantUnion;
        return Ok(t);
      } else {
        return Err(InvalidVariant);
      }
    }

    /**
     * `operator=` as written: the struct is cleared first and the source
     * is read afterwards. From another struct it copies case and payload
     * (or fails like the copy constructor, keeping the cleared payload);
     * assigning a struct to itself reads the cleared tag and fails,
     * leaving `Invalid` behind.
     */
    method Assign(other: Tagged<U>) returns (r: Outcome<()>)
      requires other.family == family
      modifies this
      ensures other == this ==> r == Err(InvalidDefaultVariant) && variantCase == 0 && variantUnion == family.zero
      ensures other != this ==> variantCase == old(other.variantCase)
      ensures other != this && old(other.variantCase) == 0 ==>
        r == Err(InvalidDefaultVariant) && variantUnion == family.zero
      ensures other != this && 1 <= old(other.variantCase) <= |family.labels| && family.assignable(old(other.variantUnion)) ==>
        r == Ok(()) && variantUnion == old(other.variantUnion)
      ensures other != this && 1 <= old(other.variantCase) <= |family.labels| && !family.assignable(old(other.variantUnion)) ==>
        r == Err(InvalidDefaultVariant) && variantUnion == family.zero
      ensures other != this && old(other.variantCase) > |family.labels| ==>
        r == Err(InvalidVariant) && variantUnion == family.zero
    {
      variantCase, variantUnion := 0, family.zero;
      variantCase := other.variantCase;
      if variantCase == 0 {
        r := Err(InvalidDefaultVariant);
      } else if variantCase <= |family.labels| {
        if family.assignable(other.variantUnion) {
          variantUnion := other.variantUnion;
          r := Ok(());
        } else {
          r := Err(InvalidDefaultVariant);
        }
      } else {
        r := Err(InvalidVariant);
      }
    }

    /**
     * Assignment that reads the source before clearing the struct, so
     * that assigning a struct to itself keeps its value.
     */
    method AssignChecked(other: Tagged<U>) returns (r: Outcome<()>)
      requires other.family == family
      modifies this
      ensures variantCase == old(other.variantCase)
      ensures old(other.variantCase) == 0 ==> r == Err(InvalidDefaultVariant) && variantUnion == family.zero
      ensures 1 <= old(other.variantCase) <= |family.labels| && family.assignable(old(other.variantUnion)) ==>
        r == Ok(()) && variantUnion == old(other.variantUnion)
      ensures 1 <= old(other.variantCase) <= |family.labels| && !family.assignable(old(other.variantUnion)) ==>
        r == Err(InvalidDefaultVariant) && variantUnion == family.zero
      ensures old(other.variantCase) > |family.labels| ==> r == Err(InvalidVariant) && variantUnion == family.zero
    {
      var otherCase, otherUnion := other.variantCase, other.variantUnion;
      variantCase, variantUnion := 0, family.zero;
      variantCase := otherCase;
      if variantCase == 0 {
        r := Err(InvalidDefaultVariant);
      } else if variantCase <= |family.labels| {
        if family.assignable(otherUnion) {
          variantUnion := otherUnion;
          r := Ok(());
        } else {
          r := Err(InvalidDefaultVariant);
        }
      } else {
        r := Err(InvalidVariant);
      }
    }

    /**
     * `to_json`: `Invalid` and unknown cases are errors; any other case
     * becomes a one-key object from its label to its payload.
     */
    function ToJson(): (r: Outcome<Json>)
      reads this
      ensures variantCase == 0 ==> r == Err(InvalidDefaultVariant)
      ensures variantCase > |family.labels| ==> r == Err(InvalidVariant)
      ensures r.Ok? ==> 1 <= variantCase <= |family.labels| && r.value.Obj? && |r.value.members| == 1
      ensures r.Ok? ==>
        && family.payloadToJson(variantUnion).Ok?
        && r.value.members[0] == (family.labels[variantCase - 1], family.payloadToJson(variantUnion).value)
    {
      if variantCase == 0 then Err(InvalidDefaultVariant)
      else if variantCase > |family.labels| then Err(InvalidVariant)
      else
        var payload :- family.payloadToJson(variantUnion);
        Ok(Obj([(family.labels[variantCase - 1], payload)]))
    }

    /**
     * `from_json`: only the first item counts. A known label writes the
     * decoded payload and its case together, unless the payload cannot be
     * stored; an unknown label leaves the struct as it was; no items at all
     * is an error.
     */
    method FromJson(j: Json) returns (r: Outcome<()>)
      modifies this
      ensures Decode(family, j, old(variantUnion)).Err? ==>
        r == Err(Decode(family, j, old(variantUnion)).error) && variantCase == old(variantCase) && variantUnion == old(variantUnion)
      ensures Decode(family, j, old(variantUnion)).Ok? ==>
        r == Ok(()) && variantUnion == Decode(family, j, old(variantUnion)).value
      ensures r.Ok? && Select(family.labels, j).Selected? ==> variantCase == Select(family.labels, j).index
      ensures !Select(family.labels, j).Selected? ==> variantCase == old(variantCase)
      ensures Lawful(family) && old(Valid()) ==> Valid()
    {
      var s := SelectCase(family.labels, j);
      match s {
        case NoItems =>
          r := Err(InvalidJson);
        case Unlabelled =>
          r := Ok(());
        case Selected(k, payload) =>
          var u := family.decodeCase(k, payload);
          if u.Err? {
            return Err(u.error);
          }
          variantUnion := u.value;
          variantCase := k;
          r := Ok(());
      }
    }
  }

  /** On a consistent struct the C-like `to_json` writes what the `std::variant` form writes. */
  lemma ToJsonAgrees<U(!new)>(t: Tagged<U>)
    requires Lawful(t.family) && t.Valid()
    ensures t.ToJson() == t.family.toJson(t.variantUnion)
  {
  }
}
