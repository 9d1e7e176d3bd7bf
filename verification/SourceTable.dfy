/** The source table a rover fetches, and the reader of the STR header a base station sends.

    Both follow the STR record of RTCM 10410.1 section 4.1. The number readers and the upper case of
    the language are parameters, of which little is relied on.
 */
module SourceTable {
  import opened Text
  import opened Wrappers

  datatype Mountpoint = Mountpoint(
    name: string, identifier: Option<string>, format: Option<string>, formatDetail: string, carrier: int,
    navSystem: string, network: string, country: Option<string>, latitude: Option<real>, longitude: Option<real>,
    nmea: bool, solution: int, generator: string, compression: string, auth: string, fee: string, bitrate: int)

  datatype Metadata = Metadata(
    name: string, identifier: Option<string>, format: string, formatDetail: string, carrier: int,
    navSystem: string, network: string, country: string, latitude: real, longitude: real,
    nmea: bool, solution: int, generator: string, compression: string, auth: string, fee: string, bitrate: int)

  datatype Readers = Readers(toInt: string -> Option<int>, toFloat: string -> Option<real>, upper: string -> string)

  // Integers of more digits are neither printed nor read.
  const MAX_INT_DIGITS := 4300

  function DigitsIn(decimal: string): nat {
    if decimal != "" && decimal[0] == '-' then |decimal| - 1 else |decimal|
  }

  predicate Printable(n: int) {
    DigitsIn(PrintInt(n)) <= MAX_INT_DIGITS
  }

  // What is relied on: plain decimals are read as such, nothing is read from an empty field, and upper
  // case neither changes "STR" nor brings in blanks at the ends or separators.
  ghost predicate Standard(r: Readers) {
    && (forall s: string :: IntOf(s).Some? && DigitsIn(s) <= MAX_INT_DIGITS ==> r.toInt(s) == IntOf(s))
    && (forall s: string :: FixedOf(s).Some? ==> r.toFloat(s) == FixedOf(s))
    && r.toInt("") == None && r.toFloat("") == None
    && r.upper("STR") == "STR"
    && (forall s: string :: Trimmed(s) ==> Trimmed(r.upper(s)))
    && (forall s: string :: Unsplit(s) ==> Unsplit(r.upper(s)))
  }

  lemma PlainReadersAreStandard()
    ensures Standard(Readers(s => IntOf(s), s => FixedOf(s), s => Upper(s)))
  {
  }

  const SEPARATOR := ";"
  const CRLF := "\r\n"
  const STR_MIN_FIELDS := 10

  // ---- printing ------------------------------------------------------------

  function TextOr(text: Option<string>): string {
    if text.Some? then text.value else ""
  }

  function FlagText(flag: bool): string {
    if flag then "1" else "0"
  }

  function CoordinateOr(x: Option<real>): string {
    if x.Some? then Fixed2(x.value) else ""
  }

  // The fields up to the country, and the others.
  function LowFields(mp: Mountpoint): (fields: seq<string>)
    ensures |fields| == 9
  {
    ["STR", mp.name, TextOr(mp.identifier), TextOr(mp.format), mp.formatDetail, PrintInt(mp.carrier), mp.navSystem,
     mp.network, TextOr(mp.country)]
  }

  function HighFields(mp: Mountpoint): (fields: seq<string>)
    ensures |fields| == 10
  {
    [CoordinateOr(mp.latitude), CoordinateOr(mp.longitude), FlagText(mp.nmea), PrintInt(mp.solution),
     mp.generator, mp.compression, mp.auth, mp.fee, PrintInt(mp.bitrate), ""]
  }

  function Fields(mp: Mountpoint): (fields: seq<string>)
    ensures |fields| == 19
    ensures forall i :: 0 <= i < 19 ==> fields[i] == if i < 9 then LowFields(mp)[i] else HighFields(mp)[i - 9]
  {
    LowFields(mp) + HighFields(mp)
  }

  function RecordText(mp: Mountpoint): string {
    Join(Fields(mp), SEPARATOR)
  }

  predicate PrintableNumbers(mp: Mountpoint) {
    Printable(mp.carrier) && Printable(mp.solution) && Printable(mp.bitrate)
  }

  // The record, unless printing one of its integers fails.
  function StrRecord(mp: Mountpoint): Option<string> {
    if PrintableNumbers(mp) then Some(RecordText(mp)) else None
  }

  function Records(mps: seq<Mountpoint>): (records: seq<string>)
    ensures |records| == |mps| && forall i :: 0 <= i < |mps| ==> records[i] == RecordText(mps[i])
  {
    seq(|mps|, i requires 0 <= i < |mps| => RecordText(mps[i]))
  }

  function TableText(mps: seq<Mountpoint>): string {
    Join(Records(mps) + ["ENDSOURCETABLE"], CRLF) + CRLF
  }

  // The table, unless printing an integer of any mountpoint fails.
  function FormatSourcetable(mps: seq<Mountpoint>): Option<string> {
    if forall i :: 0 <= i < |mps| ==> PrintableNumbers(mps[i]) then Some(TableText(mps)) else None
  }

  // ---- reading -------------------------------------------------------------

  function Cleaned(header: string): (fields: seq<string>)
    ensures |fields| == |Split(header, SEPARATOR)|
    ensures forall i :: 0 <= i < |fields| ==> fields[i] == Strip(Split(header, SEPARATOR)[i])
  {
    seq(|Split(header, SEPARATOR)|,
        i requires 0 <= i < |Split(header, SEPARATOR)| => Strip(Split(header, SEPARATOR)[i]))
  }

  // The fields from the mountpoint name on; legacy clients put a "STR" before it.
  function HeaderFields(r: Readers, header: string): seq<string> {
    var fields := Cleaned(header);
    if r.upper(fields[0]) == "STR" then fields[1..] else fields
  }

  function TextField(fields: seq<string>, i: nat): Option<string> {
    if i < |fields| && fields[i] != "" then Some(fields[i]) else None
  }

  function IntField(r: Readers, fields: seq<string>, i: nat): Option<int> {
    if i < |fields| then r.toInt(fields[i]) else None
  }

  function FloatField(r: Readers, fields: seq<string>, i: nat): Option<real> {
    if i < |fields| then r.toFloat(fields[i]) else None
  }

  function Defaults(id: string): Metadata {
    Metadata(id, None, "RTCM 3.3", "", 0, "", "", "UNK", 0.0, 0.0, false, 0, "", "", "B", "N", 0)
  }

  function TextElse(text: Option<string>, default: string): string {
    if text.Some? then text.value else default
  }

  function ChosenElse(text: Option<string>, choices: set<string>, default: string): string {
    if text.Some? && text.value in choices then text.value else default
  }

  function InRangeElse(n: Option<int>, low: int, high: int, default: int): int {
    if n.Some? && low <= n.value <= high then n.value else default
  }

  function CountryElse(r: Readers, text: Option<string>, default: string): string {
    if text.Some? && |text.value| == 3 then r.upper(text.value) else default
  }

  function DegreesElse(x: Option<real>, limit: real, default: real): real {
    if x.Some? && -limit <= x.value <= limit then x.value else default
  }

  // What the fields after the mountpoint name say, each falling back to its default on its own.
  function MetadataFrom(r: Readers, fields: seq<string>, id: string): Metadata {
    var located := |fields| >= STR_MIN_FIELDS;
    var d := Defaults(id);
    var bitrate := IntField(r, fields, 16);
    Metadata(
      TextElse(TextField(fields, 0), d.name), TextField(fields, 1), TextElse(TextField(fields, 2), d.format),
      TextElse(TextField(fields, 3), d.formatDetail), InRangeElse(IntField(r, fields, 4), 0, 2, d.carrier),
      TextElse(TextField(fields, 5), d.navSystem), TextElse(TextField(fields, 6), d.network),
      if located then CountryElse(r, TextField(fields, 7), d.country) else d.country,
      if located then DegreesElse(FloatField(r, fields, 8), 90.0, d.latitude) else d.latitude,
      if located then DegreesElse(FloatField(r, fields, 9), 180.0, d.longitude) else d.longitude,
      InRangeElse(IntField(r, fields, 10), 0, 1, 0) == 1, InRangeElse(IntField(r, fields, 11), 0, 1, d.solution),
      TextElse(TextField(fields, 12), d.generator), TextElse(TextField(fields, 13), d.compression),
      ChosenElse(TextField(fields, 14), {"N", "B", "D"}, d.auth), ChosenElse(TextField(fields, 15), {"N", "Y"}, d.fee),
      if bitrate.Some? && bitrate.value >= 0 then bitrate.value else d.bitrate)
  }

  function Parsed(r: Readers, header: Option<string>, id: string): Metadata {
    if header.None? || header.value == "" then Defaults(id) else MetadataFrom(r, HeaderFields(r, header.value), id)
  }

  // The parser: the defaults, overwritten field by field where the header has something usable.
  method ParseNtripStr(r: Readers, header: Option<string>, id: string) returns (md: Metadata)
    ensures md == Parsed(r, header, id)
  {
    md := Defaults(id);
    if header.None? || header.value == "" {
      return;
    }
    var fields := Cleaned(header.value);
    if r.upper(fields[0]) == "STR" {
      fields := fields[1..];
    }
    md := md.(name := TextElse(TextField(fields, 0), md.name));
    md := md.(identifier := TextField(fields, 1));
    md := md.(format := TextElse(TextField(fields, 2), md.format));
    md := md.(formatDetail := TextElse(TextField(fields, 3), md.formatDetail));
    md := md.(carrier := InRangeElse(IntField(r, fields, 4), 0, 2, md.carrier));
    md := md.(navSystem := TextElse(TextField(fields, 5), md.navSystem));
    md := md.(network := TextElse(TextField(fields, 6), md.network));
    if |fields| >= STR_MIN_FIELDS {
      md := md.(country := CountryElse(r, TextField(fields, 7), md.country));
      md := md.(latitude := DegreesElse(FloatField(r, fields, 8), 90.0, md.latitude));
      md := md.(longitude := DegreesElse(FloatField(r, fields, 9), 180.0, md.longitude));
    }
    var nmea := IntField(r, fields, 10);
    if nmea.Some? && 0 <= nmea.value <= 1 {
      md := md.(nmea := nmea.value == 1);
    }
    md := md.(solution := InRangeElse(IntField(r, fields, 11), 0, 1, md.solution));
    md := md.(generator := TextElse(TextField(fields, 12), md.generator));
    md := md.(compression := TextElse(TextField(fields, 13), md.compression));
    md := md.(auth := ChosenElse(TextField(fields, 14), {"N", "B", "D"}, md.auth));
    md := md.(fee := ChosenElse(TextField(fields, 15), {"N", "Y"}, md.fee));
    var bitrate := IntField(r, fields, 16);
    if bitrate.Some? && bitrate.value >= 0 {
      md := md.(bitrate := bitrate.value);
    }
  }

  // What each field says, whatever the others hold: a number, a country or a choice outside its range
  // counts for nothing, and the place only in a record of at least ten fields.
  lemma FieldsSay(r: Readers, fields: seq<string>, id: string)
    ensures var md := MetadataFrom(r, fields, id);
            && (md.nmea <==> 10 < |fields| && r.toInt(fields[10]) == Some(1))
            && 0 <= md.carrier <= 2
            && (forall n :: 1 <= n <= 2 ==> (md.carrier == n <==> 4 < |fields| && r.toInt(fields[4]) == Some(n)))
            && 0 <= md.solution <= 1
            && (md.solution == 1 <==> 11 < |fields| && r.toInt(fields[11]) == Some(1))
            && md.bitrate >= 0
            && (forall n :: n > 0 ==> (md.bitrate == n <==> 16 < |fields| && r.toInt(fields[16]) == Some(n)))
            && (md.auth == "N" <==> 14 < |fields| && fields[14] == "N")
            && (md.auth == "D" <==> 14 < |fields| && fields[14] == "D")
            && (md.auth == "N" || md.auth == "D" || md.auth == "B")
            && (if 15 < |fields| && fields[15] == "Y" then md.fee == "Y" else md.fee == "N")
  {
  }

  lemma TextFieldsSay(r: Readers, fields: seq<string>, id: string)
    requires |fields| >= 14
    ensures var md := MetadataFrom(r, fields, id);
            && md.name == (if fields[0] == "" then id else fields[0])
            && md.identifier == (if fields[1] == "" then None else Some(fields[1]))
            && md.format == (if fields[2] == "" then "RTCM 3.3" else fields[2])
            && md.formatDetail == fields[3] && md.navSystem == fields[5] && md.network == fields[6]
            && md.generator == fields[12] && md.compression == fields[13]
  {
  }

  lemma PlaceFieldsSay(r: Readers, fields: seq<string>, id: string)
    ensures var md := MetadataFrom(r, fields, id);
            && (|fields| < 10 ==> md.country == "UNK" && md.latitude == 0.0 && md.longitude == 0.0)
            && (|fields| >= 10 ==>
                  && md.country == (if |fields[7]| == 3 then r.upper(fields[7]) else "UNK")
                  && (forall x :: -90.0 <= x <= 90.0 && x != 0.0 ==>
                        (md.latitude == x <==> r.toFloat(fields[8]) == Some(x)))
                  && (forall x :: -180.0 <= x <= 180.0 && x != 0.0 ==>
                        (md.longitude == x <==> r.toFloat(fields[9]) == Some(x)))
                  && -90.0 <= md.latitude <= 90.0 && -180.0 <= md.longitude <= 180.0)
  {
  }

  // ---- printing, then reading ----------------------------------------------

  // The metadata is that of the mountpoint: its labels, its place and its traits.
  predicate Same(mp: Mountpoint, md: Metadata) {
    SameLabels(mp, md) && SamePlace(mp, md) && SameTraits(mp, md)
  }

  predicate SameLabels(mp: Mountpoint, md: Metadata) {
    && md.name == mp.name && md.identifier == mp.identifier && Some(md.format) == mp.format
    && md.formatDetail == mp.formatDetail && md.navSystem == mp.navSystem && md.network == mp.network
  }

  predicate SamePlace(mp: Mountpoint, md: Metadata) {
    Some(md.country) == mp.country && Some(md.latitude) == mp.latitude && Some(md.longitude) == mp.longitude
  }

  predicate SameTraits(mp: Mountpoint, md: Metadata) {
    && SameNumbers(mp, md) && md.generator == mp.generator && md.compression == mp.compression
    && md.auth == mp.auth && md.fee == mp.fee
  }

  predicate SameNumbers(mp: Mountpoint, md: Metadata) {
    md.carrier == mp.carrier && md.nmea == mp.nmea && md.solution == mp.solution && md.bitrate == mp.bitrate
  }

  predicate Unsplit(text: string) {
    ';' !in text
  }

  lemma UnsplitIffFree(text: string)
    ensures Unsplit(text) <==> Free(text, SEPARATOR)
  {
    if Unsplit(text) {
      forall i: nat | i <= |text|
        ensures !OccursAt(text, SEPARATOR, i)
      {
        if i < |text| {
          assert text[i..i + 1][0] == text[i];
        }
      }
    } else {
      var i: nat :| i < |text| && text[i] == ';';
      assert OccursAt(text, SEPARATOR, i);
    }
  }

  predicate Plain(text: string) {
    Unsplit(text) && Trimmed(text)
  }

  predicate PlainNonempty(text: Option<string>) {
    text.Some? && text.value != "" && Plain(text.value)
  }

  predicate Degrees(x: Option<real>, limit: real) {
    x.Some? && -limit <= x.value <= limit && TwoDecimals(x.value)
  }

  // What a record can carry: separator-free trimmed texts, none missing that has a default,
  // two-decimal coordinates in range, and the enumerations the parser knows.
  predicate Carried(r: Readers, mp: Mountpoint, id: string) {
    CarriedLabels(mp, id) && CarriedPlace(r, mp) && CarriedTraits(mp)
  }

  predicate CarriedLabels(mp: Mountpoint, id: string) {
    && Plain(mp.name) && (mp.name == "" ==> id == "")
    && (mp.identifier.None? || PlainNonempty(mp.identifier))
    && PlainNonempty(mp.format) && Plain(mp.formatDetail) && Plain(mp.navSystem) && Plain(mp.network)
  }

  predicate CarriedPlace(r: Readers, mp: Mountpoint) {
    && PlainNonempty(mp.country) && |mp.country.value| == 3 && r.upper(mp.country.value) == mp.country.value
    && Degrees(mp.latitude, 90.0) && Degrees(mp.longitude, 180.0)
  }

  predicate CarriedTraits(mp: Mountpoint) {
    && CarriedNumbers(mp)
    && Plain(mp.generator) && Plain(mp.compression)
    && mp.auth in {"N", "B", "D"} && mp.fee in {"N", "Y"}
  }

  predicate CarriedNumbers(mp: Mountpoint) {
    0 <= mp.carrier <= 2 && 0 <= mp.solution <= 1 && mp.bitrate >= 0 && Printable(mp.bitrate)
  }

  predicate UnsplitTexts(mp: Mountpoint) {
    UnsplitLabels(mp) && UnsplitRest(mp)
  }

  predicate UnsplitLabels(mp: Mountpoint) {
    && Unsplit(mp.name) && Unsplit(TextOr(mp.identifier)) && Unsplit(TextOr(mp.format))
    && Unsplit(mp.formatDetail) && Unsplit(mp.navSystem) && Unsplit(mp.network)
  }

  predicate UnsplitRest(mp: Mountpoint) {
    && Unsplit(TextOr(mp.country)) && Unsplit(mp.generator) && Unsplit(mp.compression)
    && Unsplit(mp.auth) && Unsplit(mp.fee)
  }

  // Characters of printed numbers: neither separators nor blanks.
  predicate NumberText(s: string) {
    forall i :: 0 <= i < |s| ==> IsDigit(s[i]) || s[i] == '-' || s[i] == '.'
  }

  lemma NumberTextIsPlain(s: string)
    requires NumberText(s)
    ensures Plain(s)
  {
  }

  lemma NumbersArePlain(mp: Mountpoint)
    ensures Plain(PrintInt(mp.carrier)) && Plain(PrintInt(mp.solution)) && Plain(PrintInt(mp.bitrate))
    ensures Plain(CoordinateOr(mp.latitude)) && Plain(CoordinateOr(mp.longitude)) && Plain(FlagText(mp.nmea))
  {
    NumberTextIsPlain(PrintInt(mp.carrier));
    NumberTextIsPlain(PrintInt(mp.solution));
    NumberTextIsPlain(PrintInt(mp.bitrate));
    NumberTextIsPlain(CoordinateOr(mp.latitude));
    NumberTextIsPlain(CoordinateOr(mp.longitude));
    NumberTextIsPlain(FlagText(mp.nmea));
  }

  lemma LowFieldIsUnsplit(mp: Mountpoint, i: nat)
    requires UnsplitTexts(mp) && i < 9
    ensures Unsplit(LowFields(mp)[i])
  {
    NumbersArePlain(mp);
    assert i == 0 || i == 1 || i == 2 || i == 3 || i == 4 || i == 5 || i == 6 || i == 7 || i == 8;
  }

  lemma HighFieldIsUnsplit(mp: Mountpoint, i: nat)
    requires UnsplitTexts(mp) && i < 10
    ensures Unsplit(HighFields(mp)[i])
  {
    NumbersArePlain(mp);
    assert i == 0 || i == 1 || i == 2 || i == 3 || i == 4 || i == 5 || i == 6 || i == 7 || i == 8 || i == 9;
  }

  lemma FieldsAreFree(mp: Mountpoint)
    requires UnsplitTexts(mp)
    ensures forall i :: 0 <= i < 19 ==> Free(Fields(mp)[i], SEPARATOR)
  {
    forall i | 0 <= i < 19
      ensures Free(Fields(mp)[i], SEPARATOR)
    {
      if i < 9 {
        LowFieldIsUnsplit(mp, i);
      } else {
        HighFieldIsUnsplit(mp, i - 9);
      }
      UnsplitIffFree(Fields(mp)[i]);
    }
  }

  lemma LegacyPrefixIsDropped(r: Readers, header: string, pieces: seq<string>)
    requires r.upper("STR") == "STR" && Split(header, SEPARATOR) == pieces && pieces[0] == "STR"
    ensures |HeaderFields(r, header)| == |pieces| - 1
    ensures forall i :: 0 <= i < |pieces| - 1 ==> HeaderFields(r, header)[i] == Strip(pieces[i + 1])
  {
    assert Strip("STR") == "STR";
  }

  ghost predicate AreStripped(fields: seq<string>, pieces: seq<string>) {
    |fields| == |pieces| && forall i :: 0 <= i < |pieces| ==> fields[i] == Strip(pieces[i])
  }

  // Of a header's pieces the parser sees all, stripped, unless the first is a "STR" in any case: then
  // all but that.
  lemma HeaderFieldsIff(r: Readers, pieces: seq<string>)
    requires pieces != [] && forall i :: 0 <= i < |pieces| ==> ';' !in pieces[i]
    ensures var fields := HeaderFields(r, Join(pieces, ";"));
            if r.upper(Strip(pieces[0])) == "STR" then AreStripped(fields, pieces[1..]) else AreStripped(fields, pieces)
  {
    forall i | 0 <= i < |pieces|
      ensures Free(pieces[i], SEPARATOR)
    {
      UnsplitIffFree(pieces[i]);
    }
    SplitOfJoin(pieces, SEPARATOR);
  }

  // The parser sees the printed fields, stripped, without the leading "STR".
  lemma HeaderFieldsOfRecord(r: Readers, mp: Mountpoint)
    requires r.upper("STR") == "STR" && UnsplitTexts(mp)
    ensures |HeaderFields(r, RecordText(mp))| == 18
    ensures forall i :: 0 <= i < 18 ==> HeaderFields(r, RecordText(mp))[i] == Strip(Fields(mp)[i + 1])
  {
    FieldsAreFree(mp);
    SplitOfJoin(Fields(mp), SEPARATOR);
    LegacyPrefixIsDropped(r, RecordText(mp), Fields(mp));
  }

  function Kept(text: string): Option<string> {
    if Strip(text) != "" then Some(Strip(text)) else None
  }

  function Reprinted(x: Option<real>): Option<real> {
    if x.Some? then Some(Rounded(x.value)) else None
  }

  // What comes back of a mountpoint whose texts hold no separator.
  function Reread(r: Readers, mp: Mountpoint, id: string): Metadata {
    Metadata(
      TextElse(Kept(mp.name), id), Kept(TextOr(mp.identifier)), TextElse(Kept(TextOr(mp.format)), "RTCM 3.3"),
      TextElse(Kept(mp.formatDetail), ""), InRangeElse(Some(mp.carrier), 0, 2, 0),
      TextElse(Kept(mp.navSystem), ""), TextElse(Kept(mp.network), ""), CountryElse(r, Kept(TextOr(mp.country)), "UNK"),
      DegreesElse(Reprinted(mp.latitude), 90.0, 0.0), DegreesElse(Reprinted(mp.longitude), 180.0, 0.0),
      mp.nmea, InRangeElse(Some(mp.solution), 0, 1, 0),
      TextElse(Kept(mp.generator), ""), TextElse(Kept(mp.compression), ""),
      ChosenElse(Kept(mp.auth), {"N", "B", "D"}, "B"), ChosenElse(Kept(mp.fee), {"N", "Y"}, "N"),
      if mp.bitrate >= 0 then mp.bitrate else 0)
  }

  // An integer is printable exactly if it is below ten to the limit.
  lemma PrintableIff(n: int)
    ensures Printable(n) <==> -(Power10(MAX_INT_DIGITS) as int) < n < Power10(MAX_INT_DIGITS)
  {
    DigitsIff(if n < 0 then -n else n, MAX_INT_DIGITS);
  }

  lemma SmallIsPrintable(n: nat)
    requires n < 10
    ensures Printable(n)
  {
    assert |PrintNat(n)| == 1;
  }

  lemma IntReadsBack(r: Readers, n: int)
    requires Standard(r) && Printable(n)
    ensures Strip(PrintInt(n)) == PrintInt(n) && r.toInt(PrintInt(n)) == Some(n)
  {
    NumberTextIsPlain(PrintInt(n));
    StripKeepsTrimmed(PrintInt(n));
    IntRoundTrip(n);
  }

  lemma CoordinateReadsBack(r: Readers, x: Option<real>)
    requires Standard(r)
    ensures Strip(CoordinateOr(x)) == CoordinateOr(x) && r.toFloat(CoordinateOr(x)) == Reprinted(x)
  {
    NumberTextIsPlain(CoordinateOr(x));
    StripKeepsTrimmed(CoordinateOr(x));
    if x.Some? {
      FixedRoundTrip(x.value);
    }
  }

  lemma FlagReadsBack(r: Readers, flag: bool)
    requires Standard(r)
    ensures Strip(FlagText(flag)) == FlagText(flag) && r.toInt(FlagText(flag)) == Some(if flag then 1 else 0)
  {
    SmallIsPrintable(if flag then 1 else 0);
    IntReadsBack(r, if flag then 1 else 0);
    assert PrintInt(1) == "1" && PrintInt(0) == "0";
  }

  // The fields are those of the mountpoint's record, stripped.
  predicate FieldsOf(mp: Mountpoint, fields: seq<string>) {
    |fields| == 18 && LowFieldsOf(mp, fields) && HighFieldsOf(mp, fields[8..])
  }

  predicate LowFieldsOf(mp: Mountpoint, fields: seq<string>)
    requires |fields| == 18
  {
    && fields[0] == Strip(mp.name) && fields[1] == Strip(TextOr(mp.identifier)) && fields[2] == Strip(TextOr(mp.format))
    && fields[3] == Strip(mp.formatDetail) && fields[4] == Strip(PrintInt(mp.carrier)) &&
          fields[5] == Strip(mp.navSystem)
    && fields[6] == Strip(mp.network) && fields[7] == Strip(TextOr(mp.country))
  }

  predicate HighFieldsOf(mp: Mountpoint, rest: seq<string>)
    requires |rest| == 10
  {
    && rest[0] == Strip(CoordinateOr(mp.latitude)) && rest[1] == Strip(CoordinateOr(mp.longitude))
    && rest[2] == Strip(FlagText(mp.nmea)) && rest[3] == Strip(PrintInt(mp.solution))
    && rest[4] == Strip(mp.generator) && rest[5] == Strip(mp.compression) && rest[6] == Strip(mp.auth)
    && rest[7] == Strip(mp.fee) && rest[8] == Strip(PrintInt(mp.bitrate))
  }

  lemma FieldsReadBack(r: Readers, mp: Mountpoint, fields: seq<string>, id: string)
    requires Standard(r) && PrintableNumbers(mp) && FieldsOf(mp, fields)
    ensures MetadataFrom(r, fields, id) == Reread(r, mp, id)
  {
    IntReadsBack(r, mp.carrier);
    IntReadsBack(r, mp.solution);
    IntReadsBack(r, mp.bitrate);
    FlagReadsBack(r, mp.nmea);
    CoordinateReadsBack(r, mp.latitude);
    CoordinateReadsBack(r, mp.longitude);
  }

  lemma StrippedLowFields(mp: Mountpoint, fields: seq<string>)
    requires |fields| == 18 && forall i :: 0 <= i < 8 ==> fields[i] == Strip(LowFields(mp)[i + 1])
    ensures LowFieldsOf(mp, fields)
  {
  }

  lemma StrippedHighFields(mp: Mountpoint, rest: seq<string>)
    requires |rest| == 10 && forall i :: 0 <= i < 10 ==> rest[i] == Strip(HighFields(mp)[i])
    ensures HighFieldsOf(mp, rest)
  {
    var printed := HighFields(mp);
    assert printed[0] == CoordinateOr(mp.latitude) && printed[1] == CoordinateOr(mp.longitude);
    assert printed[2] == FlagText(mp.nmea) && printed[3] == PrintInt(mp.solution) && printed[8] == PrintInt(mp.bitrate);
  }

  lemma RecordIsNonempty(mp: Mountpoint)
    ensures RecordText(mp) != ""
  {
    JoinOfSeveral(Fields(mp), SEPARATOR);
  }

  lemma RecordReadsBack(r: Readers, mp: Mountpoint, id: string)
    requires Standard(r) && UnsplitTexts(mp) && StrRecord(mp).Some?
    ensures Parsed(r, StrRecord(mp), id) == Reread(r, mp, id)
  {
    HeaderFieldsOfRecord(r, mp);
    StrippedLowFields(mp, HeaderFields(r, RecordText(mp)));
    StrippedHighFields(mp, HeaderFields(r, RecordText(mp))[8..]);
    RecordIsNonempty(mp);
    FieldsReadBack(r, mp, HeaderFields(r, RecordText(mp)), id);
  }

  lemma FieldIsUnsplit(mp: Mountpoint, i: nat)
    requires UnsplitTexts(mp) && i < 19
    ensures ';' !in Fields(mp)[i]
  {
    if i < 9 {
      LowFieldIsUnsplit(mp, i);
    } else {
      HighFieldIsUnsplit(mp, i - 9);
    }
  }

  // The fields a client sends that follows the standard: no "STR", and the last one may be missing.
  lemma CompliantFieldsAreSeen(r: Readers, mp: Mountpoint, n: nat)
    requires UnsplitTexts(mp) && r.upper(Strip(mp.name)) != "STR" && 1 < n <= 19
    ensures AreStripped(HeaderFields(r, Join(Fields(mp)[1..n], SEPARATOR)), Fields(mp)[1..n])
  {
    var pieces := Fields(mp)[1..n];
    assert pieces[0] == mp.name;
    forall i | 0 <= i < |pieces|
      ensures ';' !in pieces[i]
    {
      FieldIsUnsplit(mp, i + 1);
    }
    HeaderFieldsIff(r, pieces);
  }

  // Only the fields up to the bit rate count.
  lemma LastFieldIsIgnored(r: Readers, fields: seq<string>, id: string)
    requires |fields| == 18
    ensures MetadataFrom(r, fields, id) == MetadataFrom(r, fields[..17], id)
  {
    var short := fields[..17];
    assert forall i: nat :: i < 17 ==> TextField(fields, i) == TextField(short, i);
    assert forall i: nat :: i < 17 ==> IntField(r, fields, i) == IntField(r, short, i);
  }

  // A record sent without its leading "STR", with or without the empty field at its end, reads just as
  // the record itself, unless the name of the mountpoint is taken for a "STR".
  lemma CompliantRecordReadsAlike(r: Readers, mp: Mountpoint, id: string)
    requires r.upper("STR") == "STR" && UnsplitTexts(mp) && r.upper(Strip(mp.name)) != "STR"
    ensures var record := Parsed(r, Some(RecordText(mp)), id);
            && Parsed(r, Some(Join(Fields(mp)[1..19], SEPARATOR)), id) == record
            && Parsed(r, Some(Join(Fields(mp)[1..18], SEPARATOR)), id) == record
  {
    CompliantReads(r, mp, id, 19);
    CompliantReads(r, mp, id, 18);
  }

  lemma CompliantReads(r: Readers, mp: Mountpoint, id: string, n: nat)
    requires r.upper("STR") == "STR" && UnsplitTexts(mp) && r.upper(Strip(mp.name)) != "STR" && 18 <= n <= 19
    ensures Parsed(r, Some(Join(Fields(mp)[1..n], SEPARATOR)), id) == Parsed(r, Some(RecordText(mp)), id)
  {
    CompliantFieldsAgree(r, mp, n);
    RecordIsNonempty(mp);
    SameFieldsReadAlike(r, HeaderFields(r, RecordText(mp)), n, id);
  }

  lemma SameFieldsReadAlike(r: Readers, fields: seq<string>, n: nat, id: string)
    requires |fields| == 18 && 18 <= n <= 19
    ensures MetadataFrom(r, fields[..n - 1], id) == MetadataFrom(r, fields, id)
  {
    if n == 19 {
      assert fields[..18] == fields;
    } else {
      LastFieldIsIgnored(r, fields, id);
    }
  }

  lemma CompliantFieldsAgree(r: Readers, mp: Mountpoint, n: nat)
    requires r.upper("STR") == "STR" && UnsplitTexts(mp) && r.upper(Strip(mp.name)) != "STR" && 18 <= n <= 19
    ensures |HeaderFields(r, RecordText(mp))| == 18 && Join(Fields(mp)[1..n], SEPARATOR) != ""
    ensures HeaderFields(r, Join(Fields(mp)[1..n], SEPARATOR)) == HeaderFields(r, RecordText(mp))[..n - 1]
  {
    HeaderFieldsOfRecord(r, mp);
    CompliantFieldsAreSeen(r, mp, n);
    JoinOfSeveral(Fields(mp)[1..n], SEPARATOR);
  }

  // ---- the exact condition -------------------------------------------------

  lemma TextKeptIff(text: string, default: string)
    requires Plain(default) && Unsplit(text)
    ensures TextElse(Kept(text), default) == text <==> Plain(text) && (text == "" ==> default == "")
  {
    StripKeepsTrimmed(text);
  }

  lemma OptionalTextKeptIff(text: Option<string>)
    requires Unsplit(TextOr(text))
    ensures Kept(TextOr(text)) == text <==> text.None? || PlainNonempty(text)
  {
    StripKeepsTrimmed(TextOr(text));
  }

  lemma FormatKeptIff(text: Option<string>)
    requires Unsplit(TextOr(text))
    ensures Some(TextElse(Kept(TextOr(text)), "RTCM 3.3")) == text <==> PlainNonempty(text)
  {
    StripKeepsTrimmed(TextOr(text));
  }

  lemma CountryKeptIff(r: Readers, text: Option<string>)
    requires Standard(r) && Unsplit(TextOr(text))
    ensures Some(CountryElse(r, Kept(TextOr(text)), "UNK")) == text
            <==> PlainNonempty(text) && |text.value| == 3 && r.upper(text.value) == text.value
  {
    StripKeepsTrimmed(TextOr(text));
    assert Strip("UNK") == "UNK";
    assert Trimmed(r.upper(Strip(TextOr(text))));
  }

  lemma CoordinateKeptIff(x: Option<real>, limit: real)
    requires limit == 90.0 || limit == 180.0
    ensures Some(DegreesElse(Reprinted(x), limit, 0.0)) == x <==> Degrees(x, limit)
  {
    if x.Some? {
      RoundedIff(x.value);
    }
  }

  lemma ChoiceKeptIff(text: string, choices: set<string>, default: string)
    requires default in choices && forall c :: c in choices ==> c != "" && Trimmed(c)
    ensures ChosenElse(Kept(text), choices, default) == text <==> text in choices
  {
    StripKeepsTrimmed(text);
  }

  lemma LabelsRereadIff(r: Readers, mp: Mountpoint, id: string)
    requires Plain(id) && UnsplitTexts(mp)
    ensures SameLabels(mp, Reread(r, mp, id)) <==> CarriedLabels(mp, id)
  {
    TextKeptIff(mp.name, id);
    OptionalTextKeptIff(mp.identifier);
    FormatKeptIff(mp.format);
    TextKeptIff(mp.formatDetail, "");
    TextKeptIff(mp.navSystem, "");
    TextKeptIff(mp.network, "");
  }

  lemma PlaceRereadIff(r: Readers, mp: Mountpoint, id: string)
    requires Standard(r) && UnsplitTexts(mp)
    ensures SamePlace(mp, Reread(r, mp, id)) <==> CarriedPlace(r, mp)
  {
    CountryKeptIff(r, mp.country);
    CoordinateKeptIff(mp.latitude, 90.0);
    CoordinateKeptIff(mp.longitude, 180.0);
  }

  lemma NumbersRereadIff(r: Readers, mp: Mountpoint, id: string)
    requires PrintableNumbers(mp)
    ensures SameNumbers(mp, Reread(r, mp, id)) <==> CarriedNumbers(mp)
  {
    assert Printable(mp.bitrate);
  }

  lemma TraitsRereadIff(r: Readers, mp: Mountpoint, id: string)
    requires UnsplitTexts(mp) && PrintableNumbers(mp)
    ensures SameTraits(mp, Reread(r, mp, id)) <==> CarriedTraits(mp)
  {
    NumbersRereadIff(r, mp, id);
    TextKeptIff(mp.generator, "");
    TextKeptIff(mp.compression, "");
    ChoicesKeptIff(mp.auth, mp.fee);
  }

  lemma ChoicesKeptIff(auth: string, fee: string)
    ensures ChosenElse(Kept(auth), {"N", "B", "D"}, "B") == auth <==> auth in {"N", "B", "D"}
    ensures ChosenElse(Kept(fee), {"N", "Y"}, "N") == fee <==> fee in {"N", "Y"}
  {
    ChoiceKeptIff(auth, {"N", "B", "D"}, "B");
    ChoiceKeptIff(fee, {"N", "Y"}, "N");
  }

  lemma RereadIff(r: Readers, mp: Mountpoint, id: string)
    requires Standard(r) && Plain(id) && UnsplitTexts(mp) && PrintableNumbers(mp)
    ensures Same(mp, Reread(r, mp, id)) <==> Carried(r, mp, id)
  {
    LabelsRereadIff(r, mp, id);
    PlaceRereadIff(r, mp, id);
    TraitsRereadIff(r, mp, id);
  }

  // No text of a parse holds a separator.
  lemma HeaderFieldIsUnsplit(r: Readers, header: string, i: nat)
    requires i < |HeaderFields(r, header)|
    ensures Unsplit(HeaderFields(r, header)[i])
  {
    var k := if r.upper(Cleaned(header)[0]) == "STR" then i + 1 else i;
    SplitPiecesAreFree(header, SEPARATOR, k);
    StripKeepsFree(Split(header, SEPARATOR)[k], SEPARATOR);
    UnsplitIffFree(Cleaned(header)[k]);
  }

  ghost predicate AllUnsplit(fields: seq<string>) {
    forall i :: 0 <= i < |fields| ==> Unsplit(fields[i])
  }

  lemma LabelsAreUnsplit(r: Readers, fields: seq<string>, id: string, mp: Mountpoint)
    requires Plain(id) && AllUnsplit(fields) && SameLabels(mp, MetadataFrom(r, fields, id))
    ensures UnsplitLabels(mp)
  {
  }

  lemma RestIsUnsplit(r: Readers, fields: seq<string>, id: string, mp: Mountpoint)
    requires Standard(r) && AllUnsplit(fields) && SamePlace(mp, MetadataFrom(r, fields, id))
    requires SameTraits(mp, MetadataFrom(r, fields, id))
    ensures UnsplitRest(mp)
  {
    if 7 < |fields| {
      assert Unsplit(r.upper(fields[7]));
    }
  }

  lemma ParsedIsUnsplit(r: Readers, header: string, id: string, mp: Mountpoint)
    requires Standard(r) && Plain(id) && header != "" && Same(mp, Parsed(r, Some(header), id))
    ensures UnsplitTexts(mp)
  {
    var fields := HeaderFields(r, header);
    forall i: nat | i < |fields|
      ensures Unsplit(fields[i])
    {
      HeaderFieldIsUnsplit(r, header, i);
    }
    LabelsAreUnsplit(r, fields, id, mp);
    RestIsUnsplit(r, fields, id, mp);
  }

  lemma CarriedIsUnsplit(r: Readers, mp: Mountpoint, id: string)
    requires Carried(r, mp, id)
    ensures UnsplitTexts(mp) && PrintableNumbers(mp)
  {
    SmallIsPrintable(mp.carrier);
    SmallIsPrintable(mp.solution);
  }

  // Printing a mountpoint succeeds, and parsing the record returns exactly its metadata, if and only if
  // a record can carry it.
  lemma RoundTripIff(r: Readers, mp: Mountpoint, id: string)
    requires Standard(r) && Plain(id)
    ensures StrRecord(mp).Some? && Same(mp, Parsed(r, StrRecord(mp), id)) <==> Carried(r, mp, id)
  {
    if Carried(r, mp, id) {
      CarriedIsUnsplit(r, mp, id);
    }
    if StrRecord(mp).Some? && UnsplitTexts(mp) {
      RecordReadsBack(r, mp, id);
      RereadIff(r, mp, id);
    } else if StrRecord(mp).Some? && Same(mp, Parsed(r, StrRecord(mp), id)) {
      RecordIsNonempty(mp);
      ParsedIsUnsplit(r, RecordText(mp), id, mp);
    }
  }

  // ---- the whole table -----------------------------------------------------

  function Lines(mps: seq<Mountpoint>): (lines: seq<string>)
    ensures |lines| == |mps| + 2 && lines[|mps|] == "ENDSOURCETABLE" && lines[|mps| + 1] == ""
    ensures forall i :: 0 <= i < |mps| ==> lines[i] == RecordText(mps[i])
  {
    Records(mps) + ["ENDSOURCETABLE", ""]
  }

  lemma {:induction false} TrailingSeparator(pieces: seq<string>, sep: string)
    requires pieces != []
    ensures Join(pieces + [""], sep) == Join(pieces, sep) + sep
  {
    if |pieces| > 1 {
      assert (pieces + [""])[1..] == pieces[1..] + [""];
      TrailingSeparator(pieces[1..], sep);
    } else {
      assert (pieces + [""])[1..] == [""];
    }
  }

  lemma TableIsItsLines(mps: seq<Mountpoint>)
    ensures TableText(mps) == Join(Lines(mps), CRLF)
  {
    TrailingSeparator(Records(mps) + ["ENDSOURCETABLE"], CRLF);
    assert Lines(mps) == Records(mps) + ["ENDSOURCETABLE"] + [""];
  }

  ghost predicate OneLine(mp: Mountpoint) {
    forall i :: 0 <= i < 19 ==> Free(Fields(mp)[i], CRLF)
  }

  // A line break lies in one side or the other of a semicolon.
  lemma SemicolonBreaksNoLineBreak(a: string, b: string)
    ensures Free(a + SEPARATOR + b, CRLF) <==> Free(a, CRLF) && Free(b, CRLF)
  {
    var s := a + SEPARATOR + b;
    assert OccursAt(s, a, 0) && OccursAt(s, b, |a| + 1);
    if Free(s, CRLF) {
      PartIsFree(s, a, 0, CRLF);
      PartIsFree(s, b, |a| + 1, CRLF);
    }
    if Free(a, CRLF) && Free(b, CRLF) {
      forall i: nat | i <= |s|
        ensures !OccursAt(s, CRLF, i)
      {
        if i + 2 <= |a| {
          OccurrenceInside(s, a, 0, CRLF, i);
        } else if i > |a| && i + 2 <= |s| {
          OccurrenceInside(s, b, |a| + 1, CRLF, i - |a| - 1);
        } else if i + 2 <= |s| {
          assert s[|a|] == ';' && s[i..i + 2][|a| - i] == s[|a|];
        }
      }
    }
  }

  lemma {:induction false} JoinIsOneLineIff(pieces: seq<string>)
    requires pieces != []
    ensures Free(Join(pieces, SEPARATOR), CRLF) <==> forall i :: 0 <= i < |pieces| ==> Free(pieces[i], CRLF)
  {
    if |pieces| > 1 {
      JoinIsOneLineIff(pieces[1..]);
      SemicolonBreaksNoLineBreak(pieces[0], Join(pieces[1..], SEPARATOR));
      assert forall i :: 0 < i < |pieces| ==> pieces[i] == pieces[1..][i - 1];
    }
  }

  lemma NoReturnIsFree(s: string)
    requires '\r' !in s
    ensures Free(s, CRLF)
  {
    forall i: nat | i <= |s|
      ensures !OccursAt(s, CRLF, i)
    {
      if i + 2 <= |s| {
        assert s[i..i + 2][0] == s[i];
      }
    }
  }

  // Splitting a printed table on line breaks recovers every record in order, then the terminator, if
  // and only if no field of a mountpoint holds a line break.
  lemma TableSplitsIff(mps: seq<Mountpoint>)
    requires FormatSourcetable(mps).Some?
    ensures Split(FormatSourcetable(mps).value, CRLF) == Lines(mps) <==> forall i :: 0 <= i < |mps| ==> OneLine(mps[i])
  {
    TableIsItsLines(mps);
    SplitUndoesJoinIff(Lines(mps), CRLF);
    NoReturnIsFree("ENDSOURCETABLE");
    NoReturnIsFree("");
    forall i | 0 <= i < |mps|
      ensures Free(Lines(mps)[i], CRLF) <==> OneLine(mps[i])
    {
      JoinIsOneLineIff(Fields(mps[i]));
    }
    AllLinesFreeIff(mps);
  }

  lemma AllLinesFreeIff(mps: seq<Mountpoint>)
    requires Free("ENDSOURCETABLE", CRLF) && Free("", CRLF)
    requires forall i :: 0 <= i < |mps| ==> (Free(Lines(mps)[i], CRLF) <==> OneLine(mps[i]))
    ensures (forall i :: 0 <= i < |Lines(mps)| ==> Free(Lines(mps)[i], CRLF)) <==>
        forall i :: 0 <= i < |mps| ==> OneLine(mps[i])
  {
    if forall i :: 0 <= i < |mps| ==> OneLine(mps[i]) {
      forall i | 0 <= i < |Lines(mps)|
        ensures Free(Lines(mps)[i], CRLF)
      {
        if i < |mps| {
          assert OneLine(mps[i]);
        }
      }
    } else {
      var i :| 0 <= i < |mps| && !OneLine(mps[i]);
      assert !Free(Lines(mps)[i], CRLF);
    }
  }

  // From mountpoints to the table to a reader's metadata: nothing is lost on the way.
  lemma TableDeliversEveryMountpoint(r: Readers, mps: seq<Mountpoint>)
    requires Standard(r)
    requires forall i :: 0 <= i < |mps| ==> OneLine(mps[i]) && Carried(r, mps[i], mps[i].name)
    ensures FormatSourcetable(mps).Some?
    ensures var lines := Split(FormatSourcetable(mps).value, CRLF);
            && |lines| == |mps| + 2 && lines[|mps|] == "ENDSOURCETABLE" && lines[|mps| + 1] == ""
            && forall i :: 0 <= i < |mps| ==> Same(mps[i], Parsed(r, Some(lines[i]), mps[i].name))
  {
    forall i | 0 <= i < |mps|
      ensures PrintableNumbers(mps[i]) && Same(mps[i], Parsed(r, Some(Lines(mps)[i]), mps[i].name))
    {
      RoundTripIff(r, mps[i], mps[i].name);
    }
    TableSplitsIff(mps);
  }
}
