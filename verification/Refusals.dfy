/** Refusals built from a caller's own text: bounded in size whatever arrived, and unchanged
    by being bounded twice. */
module Refusals {
  import opened Relational

  const MAX_INVALID_FIELDS := 20
  const MAX_FIELD_LOCATION_PARTS := 12
  const MAX_FIELD_LOCATION_PART_LENGTH := 64
  const MAX_FIELD_MESSAGE_LENGTH := 200
  const MAX_REFUSAL_DETAIL_LENGTH := 400

  datatype InvalidField = InvalidField(location: seq<string>, message: string)

  // A validation entry: both keys may be missing. Parts and message are already text.
  datatype Entry = Entry(loc: Option<seq<string>>, msg: Option<string>)

  datatype InvalidRequest = InvalidRequest(detail: string, fields: seq<InvalidField>)

  // A caught ValueError: a validation report, or a sentence this repository wrote.
  datatype Caught = Validation(errors: seq<Entry>) | Domain(text: string)

  // value[:n], where a negative n counts from the end.
  function Take<T>(value: seq<T>, n: int): (r: seq<T>)
    ensures r <= value
    ensures |r| == if n >= 0 then (if n < |value| then n else |value|) else if |value| + n > 0 then |value| + n else 0
  {
    if n >= 0 then (if n < |value| then value[..n] else value)
    else if |value| + n > 0 then value[..|value| + n]
    else []
  }

  function Shortened(value: string, limit: int): string {
    if |value| <= limit then value else Take(value, limit - 3) + "..."
  }

  // Below three there is no room for the dots, and the cut then counts from the wrong end.
  lemma ShortenedFits(value: string, limit: int)
    ensures |Shortened(value, limit)| <= limit <==> limit >= 3 || |value| <= limit
  {
  }

  // A cut text keeps its beginning and says it was cut.
  lemma ShortenedSaysSo(value: string, limit: int)
    requires limit >= 3
    ensures Shortened(Shortened(value, limit), limit) == Shortened(value, limit)
    ensures |value| > limit ==> exists kept ::
      Shortened(value, limit) == kept + "..." && kept <= value && |kept| == limit - 3
  {
    var kept := Take(value, limit - 3);
    assert |value| > limit ==> Shortened(value, limit) == kept + "...";
  }

  function Map<A, B>(f: A -> B, s: seq<A>): (r: seq<B>)
    ensures |r| == |s| && forall i :: 0 <= i < |s| ==> r[i] == f(s[i])
  {
    seq(|s|, i requires 0 <= i < |s| => f(s[i]))
  }

  function ShortPart(part: string): string { Shortened(part, MAX_FIELD_LOCATION_PART_LENGTH) }

  function BoundedField(entry: Entry): InvalidField {
    InvalidField(
      Take(Map(ShortPart, if entry.loc.Some? then entry.loc.value else []), MAX_FIELD_LOCATION_PARTS),
      Shortened(if entry.msg.Some? then entry.msg.value else "is not valid", MAX_FIELD_MESSAGE_LENGTH))
  }

  function BoundedFields(entries: seq<Entry>): seq<InvalidField> {
    Map(BoundedField, Take(entries, MAX_INVALID_FIELDS))
  }

  // A field read back as an entry, which is how an error takes the fields it is given.
  function AsEntry(field: InvalidField): Entry { Entry(Some(field.location), Some(field.message)) }

  predicate FitsField(field: InvalidField) {
    && |field.location| <= MAX_FIELD_LOCATION_PARTS
    && (forall part :: part in field.location ==> |part| <= MAX_FIELD_LOCATION_PART_LENGTH)
    && |field.message| <= MAX_FIELD_MESSAGE_LENGTH
  }

  predicate Fits(fields: seq<InvalidField>) {
    |fields| <= MAX_INVALID_FIELDS && forall i :: 0 <= i < |fields| ==> FitsField(fields[i])
  }

  lemma BoundedFieldFits(entry: Entry)
    ensures FitsField(BoundedField(entry))
  {
    var parts := if entry.loc.Some? then entry.loc.value else [];
    var kept := BoundedField(entry).location;
    forall part | part in kept ensures |part| <= MAX_FIELD_LOCATION_PART_LENGTH {
      var i :| 0 <= i < |kept| && kept[i] == part;
      assert part == Map(ShortPart, parts)[i] == Shortened(parts[i], MAX_FIELD_LOCATION_PART_LENGTH);
    }
  }

  // Bounding always fits, and bounding what fits changes nothing: the second pass an error
  // makes over its fields is the identity on fields already bounded, and on those only.
  lemma BoundingIsStable(fields: seq<InvalidField>)
    ensures Fits(BoundedFields(Map(AsEntry, fields)))
    ensures BoundedFields(Map(AsEntry, fields)) == fields <==> Fits(fields)
  {
    var again := BoundedFields(Map(AsEntry, fields));
    forall i | 0 <= i < |again| ensures FitsField(again[i]) && again[i] == BoundedField(AsEntry(fields[i])) {
      BoundedFieldFits(AsEntry(fields[i]));
    }
    if Fits(fields) {
      forall i | 0 <= i < |fields| ensures again[i] == fields[i] {
        FittingFieldIsKept(fields[i]);
      }
    }
  }

  lemma FittingFieldIsKept(field: InvalidField)
    requires FitsField(field)
    ensures BoundedField(AsEntry(field)) == field
  {
    forall i | 0 <= i < |field.location| ensures Map(ShortPart, field.location)[i] == field.location[i] {
      assert field.location[i] in field.location;
    }
    assert Map(ShortPart, field.location) == field.location;
  }

  function Join(parts: seq<string>, separator: string): string {
    if |parts| == 0 then "" else if |parts| == 1 then parts[0] else parts[0] + separator + Join(parts[1..], separator)
  }

  function Named(field: InvalidField): string {
    (if Join(field.location, ".") == "" then "body" else Join(field.location, ".")) + ": " + field.message
  }

  function RefusalDetail(fields: seq<InvalidField>): string {
    var named := Join(Map(Named, Take(fields, 3)), "; ");
    if named == "" then "the request body could not be read" else named
  }

  lemma OneMorePart(n: nat, most: nat, separator: nat)
    ensures n * most + (n - 1) * separator + most + separator == (n + 1) * most + n * separator
  {
  }

  lemma {:induction false} JoinFits(parts: seq<string>, separator: string, most: nat)
    requires forall part :: part in parts ==> |part| <= most
    ensures parts != [] ==> |Join(parts, separator)| <= |parts| * most + (|parts| - 1) * |separator|
    decreases |parts|
  {
    if |parts| > 1 {
      assert parts[0] in parts && forall part :: part in parts[1..] ==> part in parts;
      JoinFits(parts[1..], separator, most);
      OneMorePart(|parts| - 1, most, |separator|);
    } else if |parts| == 1 {
      assert parts[0] in parts;
    }
  }

  // Three fields of twelve 64-character parts, their dots, a 200-character message each, and
  // the punctuation between them.
  lemma RefusalDetailFits(fields: seq<InvalidField>)
    requires Fits(fields)
    ensures |RefusalDetail(fields)| <= 3 * (12 * 64 + 11 + 2 + 200) + 2 * 2 == 2947
  {
    var shown := Map(Named, Take(fields, 3));
    forall s | s in shown ensures |s| <= 981 {
      var i :| 0 <= i < |shown| && shown[i] == s;
      NamedFits(fields[i]);
    }
    JoinFits(shown, "; ", 981);
    if |shown| == 1 { } else if |shown| == 2 { } else if |shown| == 3 { }
  }

  lemma NamedFits(field: InvalidField)
    requires FitsField(field)
    ensures |Named(field)| <= 12 * 64 + 11 + 2 + 200
  {
    JoinFits(field.location, ".", MAX_FIELD_LOCATION_PART_LENGTH);
  }

  // The bound is met, so it is the real one.
  lemma RefusalDetailCanBeThatLong() returns (fields: seq<InvalidField>)
    ensures Fits(fields) && |RefusalDetail(fields)| == 2947
  {
    var part := seq(64, _ => 'x');
    var location := seq(12, _ => part);
    var field := InvalidField(location, seq(200, _ => 'x'));
    fields := [field, field, field];
    JoinRepeats(location, part, ".");
    var shown := Map(Named, Take(fields, 3));
    assert |Named(field)| == 981;
    JoinRepeats(shown, Named(field), "; ");
  }

  lemma {:induction false} JoinRepeats(parts: seq<string>, part: string, separator: string)
    requires parts != [] && forall i :: 0 <= i < |parts| ==> parts[i] == part
    ensures |Join(parts, separator)| == |parts| * |part| + (|parts| - 1) * |separator|
    decreases |parts|
  {
    if |parts| > 1 {
      JoinRepeats(parts[1..], part, separator);
    }
  }

  // InvalidRequestError bounds the fields it is given, whoever built them.
  function NewInvalidRequest(detail: string, fields: seq<InvalidField>): InvalidRequest {
    InvalidRequest(Shortened(detail, MAX_REFUSAL_DETAIL_LENGTH), BoundedFields(Map(AsEntry, fields)))
  }

  function FromCaught(error: Caught): InvalidRequest {
    match error
    case Validation(errors) =>
      var fields := BoundedFields(errors);
      NewInvalidRequest(RefusalDetail(fields), fields)
    case Domain(text) => NewInvalidRequest(Shortened(text, MAX_REFUSAL_DETAIL_LENGTH), [])
  }

  function Length(text: string): nat { |text| }

  function TextOf(field: InvalidField): nat {
    Total(Map(Length, field.location)) + |field.message|
  }

  function Total(sizes: seq<nat>): nat {
    if sizes == [] then 0 else sizes[0] + Total(sizes[1..])
  }

  function Size(refusal: InvalidRequest): nat {
    |refusal.detail| + Total(Map(TextOf, refusal.fields))
  }

  lemma {:induction false} TotalFits(sizes: seq<nat>, most: nat)
    requires forall i :: 0 <= i < |sizes| ==> sizes[i] <= most
    ensures Total(sizes) <= |sizes| * most
    decreases |sizes|
  {
    if sizes != [] {
      TotalFits(sizes[1..], most);
    }
  }

  // However large the request, the refusal is not.
  lemma RefusalsAreBounded(detail: string, fields: seq<InvalidField>)
    ensures Size(NewInvalidRequest(detail, fields)) <= 400 + 20 * (12 * 64 + 200)
  {
    BoundingIsStable(fields);
    FieldsFit(BoundedFields(Map(AsEntry, fields)));
    ShortenedFits(detail, MAX_REFUSAL_DETAIL_LENGTH);
  }

  lemma FieldsFit(fields: seq<InvalidField>)
    requires Fits(fields)
    ensures Total(Map(TextOf, fields)) <= 20 * (12 * 64 + 200)
  {
    var sizes := Map(TextOf, fields);
    forall i | 0 <= i < |sizes| ensures sizes[i] <= 12 * 64 + 200 {
      TextFits(fields[i]);
    }
    TotalFits(sizes, 12 * 64 + 200);
  }

  lemma TextFits(field: InvalidField)
    requires FitsField(field)
    ensures TextOf(field) <= 12 * 64 + 200
  {
    forall k | 0 <= k < |field.location| ensures |field.location[k]| <= 64 {
      assert field.location[k] in field.location;
    }
    TotalFits(Map(Length, field.location), 64);
  }

  // A validation report keeps its fields through the second bounding, none of it lost twice.
  lemma ValidationFieldsSurvive(errors: seq<Entry>)
    ensures FromCaught(Validation(errors)).fields == BoundedFields(errors)
    ensures |FromCaught(Validation(errors)).fields| == if |errors| < 20 then |errors| else 20
  {
    var fields := BoundedFields(errors);
    forall i | 0 <= i < |fields| ensures FitsField(fields[i]) {
      BoundedFieldFits(errors[i]);
    }
    BoundingIsStable(fields);
  }

  /* ---- what is kept ---- */

  // A field says where and what: the first twelve parts of the place and the message, each cut
  // where it is too long, the way ShortenedSaysSo says.
  predicate Says(field: InvalidField, entry: Entry) {
    && field.message == Shortened(if entry.msg.Some? then entry.msg.value else "is not valid", 200)
    && match entry.loc
       case None => field.location == []
       case Some(parts) =>
         && |field.location| == (if |parts| < 12 then |parts| else 12)
         && forall i :: 0 <= i < |field.location| ==> field.location[i] == Shortened(parts[i], 64)
  }

  // Of a validation report the first twenty entries are kept, in order, each saying what it said.
  lemma FirstTwentyAreKept(errors: seq<Entry>)
    ensures var fields := FromCaught(Validation(errors)).fields;
      && FromCaught(Validation(errors)).detail == Shortened(RefusalDetail(fields), 400)
      && |fields| == (if |errors| < 20 then |errors| else 20)
      && forall i :: 0 <= i < |fields| ==> Says(fields[i], errors[i])
  {
    ValidationFieldsSurvive(errors);
  }

  // And a sentence this repository wrote is passed on whole, up to 400 characters, with no fields.
  lemma SentencesArePassedOn(text: string)
    ensures FromCaught(Domain(text)).fields == []
    ensures |text| <= 400 ==> FromCaught(Domain(text)).detail == text
    ensures |text| > 400 ==> FromCaught(Domain(text)).detail == text[..397] + "..."
  {
    ShortenedSaysSo(text, MAX_REFUSAL_DETAIL_LENGTH);
  }

  // The sentence built from fields names the first three, each by its place, or as the body.
  lemma RefusalNamesTheFirstThree(fields: seq<InvalidField>)
    ensures fields == [] ==> RefusalDetail(fields) == "the request body could not be read"
    ensures |fields| == 1 ==> RefusalDetail(fields) == Named(fields[0])
    ensures |fields| == 2 ==> RefusalDetail(fields) == Named(fields[0]) + "; " + Named(fields[1])
    ensures |fields| >= 3 ==>
      RefusalDetail(fields) == Named(fields[0]) + "; " + (Named(fields[1]) + "; " + Named(fields[2]))
  {
    var shown := Map(Named, Take(fields, 3));
    if |fields| == 2 {
      assert shown[1..] == [Named(fields[1])];
      assert Join(shown[1..], "; ") == Named(fields[1]);
      assert |Join(shown, "; ")| > 0;
    } else if |fields| >= 3 {
      assert shown[1..] == [Named(fields[1]), Named(fields[2])] && shown[1..][1..] == [Named(fields[2])];
      assert Join(shown[1..][1..], "; ") == Named(fields[2]);
      assert Join(shown[1..], "; ") == Named(fields[1]) + "; " + Named(fields[2]);
      assert |Join(shown, "; ")| > 0;
    }
  }

  lemma FieldIsNamedByItsPlace(message: string, part: string, rest: seq<string>)
    ensures Named(InvalidField([], message)) == "body: " + message
    ensures Named(InvalidField([""], message)) == "body: " + message
    ensures part != "" ==> Named(InvalidField([part], message)) == part + ": " + message
    ensures part != "" && rest != [] ==>
      Named(InvalidField([part] + rest, message)) == part + "." + Join(rest, ".") + ": " + message
  {
    assert ([part] + rest)[1..] == rest;
  }
}
