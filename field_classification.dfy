/**
 * The table `getValidationErrors` (pages/PassengerDetailsPage.ts) uses to tell which form field
 * an error text belongs to: entries are tried in order, an entry matches when any of its
 * patterns does, and a text no entry matches belongs to "unknown".
 */
module FieldClassification {
  import opened Wrappers
  import opened Text
  import opened Patterns

  datatype FieldEntry = FieldEntry(fieldId: string, patterns: seq<Pattern>)

  const UnknownField := "unknown"

  const VoornaamPaspoort := Pattern("/voornaam.*paspoort/i", [["voornaam", "paspoort"]])
  const FirstDotName := Pattern("/first.*name/i", [["first", "name"]])
  const AchternaamPaspoort := Pattern("/achternaam.*paspoort/i", [["achternaam", "paspoort"]])
  const LastDotName := Pattern("/last.*name/i", [["last", "name"]])
  const Achternaam := Pattern("/achternaam/i", [["achternaam"]])
  const Geslacht := Pattern("/geslacht/i", [["geslacht"]])
  const Gender := Pattern("/gender/i", [["gender"]])
  const Geboortedatum := Pattern("/geboortedatum/i", [["geboortedatum"]])
  const DateDotBirth := Pattern("/date.*birth/i", [["date", "birth"]])
  const DateFormat := Pattern("/DD\\/MM\\/JJJJ/i", [["dd/mm/jjjj"]])
  const Nationaliteit := Pattern("/nationaliteit/i", [["nationaliteit"]])
  const Nationality := Pattern("/nationality/i", [["nationality"]])
  const Land := Pattern("/land/i", [["land"]])
  const Country := Pattern("/country/i", [["country"]])
  const Straatnaam := Pattern("/straatnaam/i", [["straatnaam"]])
  const Street := Pattern("/street/i", [["street"]])
  const Huisnummer := Pattern("/huisnummer/i", [["huisnummer"]])
  const HouseDotNumber := Pattern("/house.*number/i", [["house", "number"]])
  const Postcode := Pattern("/postcode/i", [["postcode"]])
  const PostalDotCode := Pattern("/postal.*code/i", [["postal", "code"]])
  const Woonplaats := Pattern("/woonplaats/i", [["woonplaats"]])
  const Town := Pattern("/town/i", [["town"]])
  const City := Pattern("/city/i", [["city"]])
  const Landcode := Pattern("/landcode/i", [["landcode"]])
  const PhoneDotCode := Pattern("/phone.*code/i", [["phone", "code"]])
  const Telefoonnummer := Pattern("/telefoonnummer/i", [["telefoonnummer"]])
  const Phone := Pattern("/phone/i", [["phone"]])
  const Mobile := Pattern("/mobile/i", [["mobile"]])
  const EDashMail := Pattern("/e-mail/i", [["e-mail"]])
  const Email := Pattern("/email/i", [["email"]])

  /** The table, in the order its keys are enumerated. */
  const FieldMapping: seq<FieldEntry> := [
    FieldEntry("firstName_0", [VoornaamPaspoort, FirstDotName]),
    FieldEntry("lastName_0", [AchternaamPaspoort, LastDotName, Achternaam]),
    FieldEntry("gender_0", [Geslacht, Gender]),
    FieldEntry("dob_0", [Geboortedatum, DateDotBirth, DateFormat]),
    FieldEntry("nationality", [Nationaliteit, Nationality]),
    FieldEntry("country", [Land, Country]),
    FieldEntry("address1", [Straatnaam, Street]),
    FieldEntry("houseNum", [Huisnummer, HouseDotNumber]),
    FieldEntry("postCode", [Postcode, PostalDotCode]),
    FieldEntry("town", [Woonplaats, Town, City]),
    FieldEntry("phonecode", [Landcode, PhoneDotCode]),
    FieldEntry("mobileNum", [Telefoonnummer, Phone, Mobile]),
    FieldEntry("email", [EDashMail, Email]),
    FieldEntry("firstName_1", [VoornaamPaspoort, FirstDotName]),
    FieldEntry("lastName_1", [AchternaamPaspoort, Achternaam]),
    FieldEntry("gender_1", [Geslacht, Gender]),
    FieldEntry("dob_1", [Geboortedatum, DateFormat])
  ]

  /** `patterns.some(pattern => pattern.test(text))` */
  predicate EntryMatches(entry: FieldEntry, text: string) {
    exists k :: 0 <= k < |entry.patterns| && Matches(entry.patterns[k], text)
  }

  /** The position of the first entry at or after `from` that matches `text`. */
  function FirstMatchFrom(table: seq<FieldEntry>, text: string, from: nat): (m: Option<nat>)
    requires from <= |table|
    ensures m.Some? ==>
      && from <= m.value < |table|
      && EntryMatches(table[m.value], text)
      && forall j :: from <= j < m.value ==> !EntryMatches(table[j], text)
    ensures m.None? <==> forall j :: from <= j < |table| ==> !EntryMatches(table[j], text)
    decreases |table| - from
  {
    if from == |table| then None
    else if EntryMatches(table[from], text) then Some(from)
    else FirstMatchFrom(table, text, from + 1)
  }

  /** The position in the table of the entry that claims `text`, if any. */
  function MatchedEntry(text: string): Option<nat> {
    FirstMatchFrom(FieldMapping, text, 0)
  }

  /** The field id `getValidationErrors` assigns to a (trimmed) error text. */
  function Classify(text: string): (id: string)
    ensures id == UnknownField <==> forall j :: 0 <= j < |FieldMapping| ==> !EntryMatches(FieldMapping[j], text)
    ensures MatchedEntry(text).Some? ==> id == FieldMapping[MatchedEntry(text).value].fieldId
  {
    assert forall j :: 0 <= j < |FieldMapping| ==>
      (|FieldMapping[j].fieldId| != |UnknownField| || FieldMapping[j].fieldId[0] != UnknownField[0]);
    match MatchedEntry(text)
    case Some(k) => FieldMapping[k].fieldId
    case None => UnknownField
  }

  /** Every pattern of one entry also belongs to another. */
  predicate Subsumed(p: seq<Pattern>, q: seq<Pattern>) {
    forall a :: 0 <= a < |p| ==> p[a] in q
  }

  lemma SubsumedMatches(p: seq<Pattern>, q: seq<Pattern>, id1: string, id2: string, text: string)
    requires Subsumed(p, q)
    requires EntryMatches(FieldEntry(id1, p), text)
    ensures EntryMatches(FieldEntry(id2, q), text)
  {
    var k :| 0 <= k < |p| && Matches(p[k], text);
    var l :| 0 <= l < |q| && q[l] == p[k];
  }

  /** An entry whose patterns all occur in an earlier entry is never the first to match. */
  lemma ShadowedNeverFirst(table: seq<FieldEntry>, text: string, j: nat, k: nat)
    requires j < k < |table|
    requires Subsumed(table[k].patterns, table[j].patterns)
    ensures FirstMatchFrom(table, text, 0) != Some(k)
  {
    if FirstMatchFrom(table, text, 0) == Some(k) {
      SubsumedMatches(table[k].patterns, table[j].patterns, table[k].fieldId, table[j].fieldId, text);
      assert false;
    }
  }

  /** The four entries for the second passenger repeat patterns of the first passenger's
      entries, so the table can never claim a text for them. */
  lemma SecondPassengerEntriesShadowed(text: string)
    ensures MatchedEntry(text).Some? ==> MatchedEntry(text).value < 13
  {
    assert Subsumed(FieldMapping[13].patterns, FieldMapping[0].patterns);
    assert Subsumed(FieldMapping[14].patterns, FieldMapping[1].patterns);
    assert Subsumed(FieldMapping[15].patterns, FieldMapping[2].patterns);
    assert Subsumed(FieldMapping[16].patterns, FieldMapping[3].patterns);
    ShadowedNeverFirst(FieldMapping, text, 0, 13);
    ShadowedNeverFirst(FieldMapping, text, 1, 14);
    ShadowedNeverFirst(FieldMapping, text, 2, 15);
    ShadowedNeverFirst(FieldMapping, text, 3, 16);
  }

  /** No error text is ever assigned to a field of the second passenger. */
  lemma SecondPassengerNeverClassified(text: string)
    ensures Classify(text) != "firstName_1" && Classify(text) != "lastName_1"
    ensures Classify(text) != "gender_1" && Classify(text) != "dob_1"
  {
    SecondPassengerEntriesShadowed(text);
    var id := Classify(text);
    if MatchedEntry(text).Some? {
      var m := MatchedEntry(text).value;
      assert id == FieldMapping[m].fieldId;
      assert m < 13;
      assert id[|id| - 2..] != "_1";
    }
  }

  /** A text that contains "land" (in any letter case) is claimed no later than "country". */
  lemma {:induction false} LandClaimedByCountryAtTheLatest(text: string)
    requires Contains(Lower(text), "land")
    ensures MatchedEntry(text).Some? && MatchedEntry(text).value <= 5
  {
    LiteralMatchIff(Land.source, "land", text);
    assert FieldMapping[5].patterns[0] == Land;
    assert EntryMatches(FieldMapping[5], text);
  }

  /** Because of that, a text containing "land" is never classified as "phonecode". */
  lemma LandIsNeverPhonecode(text: string)
    requires Contains(Lower(text), "land")
    ensures Classify(text) != "phonecode"
  {
    LandClaimedByCountryAtTheLatest(text);
    var m := MatchedEntry(text).value;
    assert Classify(text) == FieldMapping[m].fieldId;
    assert FieldMapping[m].fieldId != "phonecode";
  }

  /** A text with no earlier claimant that contains "land" is classified as "country". */
  lemma LandIsCountry(text: string)
    requires Contains(Lower(text), "land")
    requires forall j :: 0 <= j < 5 ==> !EntryMatches(FieldMapping[j], text)
    ensures Classify(text) == "country"
  {
    LandClaimedByCountryAtTheLatest(text);
  }

  /** `/landcode/i` never decides: the "phonecode" field is reached only through `/phone.*code/i`. */
  lemma PhonecodeOnlyThroughPhoneCode(text: string)
    requires Classify(text) == "phonecode"
    ensures Matches(PhoneDotCode, text)
    ensures !Matches(Landcode, text)
  {
    var t := Lower(text);
    if Matches(Landcode, text) {
      assert Landcode.alternatives[0] == ["landcode"];
      LiteralChainIsContains(t, "landcode");
      assert MatchAnywhere(t, Landcode.alternatives[0]);
      assert "land" + "code" == "landcode";
      ContainsPrefixOfNeedle(t, "land", "code");
      LandIsNeverPhonecode(text);
      assert false;
    }
    SecondPassengerEntriesShadowed(text);
    var m := MatchedEntry(text).value;
    assert FieldMapping[m].fieldId == "phonecode";
    assert m == 10;
    var k :| 0 <= k < |FieldMapping[10].patterns| && Matches(FieldMapping[10].patterns[k], text);
  }
}
