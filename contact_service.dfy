/**
 * Device contacts as the debt form uses them: the import filter, the tiered
 * name search with its stable ordering by score, the display name and the
 * initials shown in the avatar.
 */
module ContactService {
  import opened Common
  import opened JsText

  /** A contact after import; phone numbers, e-mails and the image are not modelled. */
  datatype Contact = Contact(id: string, firstName: string, lastName: string, name: string)

  /** A contact as the platform returns it, where each name field may be missing. */
  datatype RawContact = RawContact(id: string, firstName: Option<string>, lastName: Option<string>, name: Option<string>)

  datatype SearchResult = SearchResult(contact: Contact, matchScore: int)

  /** `x || ''`. */
  function OrEmpty(x: Option<string>): string {
    if x.Some? then x.value else []
  }

  /** The imported contact: missing names become '', and a missing name is built from the parts. */
  function ToContact(raw: RawContact): (c: Contact)
    ensures c.name == [] ==> raw.name.None? || raw.name.value == []
  {
    var first, last := OrEmpty(raw.firstName), OrEmpty(raw.lastName);
    var name := if raw.name.Some? && raw.name.value != [] then raw.name.value
                else Trim(first + " " + last);
    Contact(raw.id, first, last, name)
  }

  /** The map-then-filter of `getAllContacts`. */
  function ImportContacts(data: seq<RawContact>): (r: seq<Contact>)
    ensures forall i :: 0 <= i < |r| ==> r[i].name != []
    ensures |r| <= |data|
  {
    if data == [] then []
    else
      var c := ToContact(data[0]);
      (if c.name != [] then [c] else []) + ImportContacts(data[1..])
  }

  /** The contacts kept are exactly the imported ones with a non-empty name. */
  lemma {:induction false} ImportContactsMembers(data: seq<RawContact>)
    ensures forall c :: c in ImportContacts(data) <==>
      exists raw :: raw in data && c == ToContact(raw) && c.name != []
  {
    if data != [] {
      ImportContactsMembers(data[1..]);
      assert forall raw :: raw in data <==> raw == data[0] || raw in data[1..];
    }
  }

  /** `getAllContacts`: without permission, or when the platform call fails, nothing. */
  function GetAllContacts(granted: bool, data: Option<seq<RawContact>>): (r: seq<Contact>)
    ensures !granted || data.None? ==> r == []
    ensures granted && data.Some? ==> r == ImportContacts(data.value)
  {
    if granted && data.Some? then ImportContacts(data.value) else []
  }

  /** `formatContactName`. */
  function FormatContactName(c: Contact): (r: string)
    ensures r != []
    ensures c.name != [] ==> r == c.name
    ensures c.name == [] && Trim(c.firstName + " " + c.lastName) == [] ==> r == "Unknown Contact"
  {
    if c.name != [] then c.name
    else
      var joined := Trim(c.firstName + " " + c.lastName);
      if joined != [] then joined else "Unknown Contact"
  }

  /** Every imported contact is displayed under its own name. */
  lemma ImportedNameIsDisplayed(data: seq<RawContact>, c: Contact)
    requires c in ImportContacts(data)
    ensures FormatContactName(c) == c.name
  {
    var i :| 0 <= i < |ImportContacts(data)| && ImportContacts(data)[i] == c;
  }

  /** `s[0]` in a template literal: "undefined" for an empty string. */
  function FirstOrUndefined(s: string): string {
    if s == [] then "undefined" else [s[0]]
  }

  /** `s.substring(0, 2)`. */
  function FirstTwo(s: string): (r: string)
    ensures |r| <= 2
  {
    if |s| <= 2 then s else s[..2]
  }

  /** `getContactInitials`. */
  function Initials(c: Contact): string {
    if c.firstName != [] && c.lastName != [] then Upper([c.firstName[0], c.lastName[0]])
    else if c.firstName != [] then Upper(FirstTwo(c.firstName))
    else if c.lastName != [] then Upper(FirstTwo(c.lastName))
    else if c.name != [] then
      var parts := Split(c.name, ' ');
      if |parts| >= 2 then Upper(FirstOrUndefined(parts[0]) + FirstOrUndefined(parts[1]))
      else Upper(FirstTwo(c.name))
    else "??"
  }

  /** '??' for a contact with no name at all; otherwise, from a first or last name, one or two letters. */
  lemma InitialsShape(c: Contact)
    ensures c.firstName == [] && c.lastName == [] && c.name == [] ==> Initials(c) == "??"
    ensures c.firstName != [] && c.lastName != [] ==> Initials(c) == [UpperChar(c.firstName[0]), UpperChar(c.lastName[0])]
    ensures c.firstName != [] || c.lastName != [] ==> 1 <= |Initials(c)| <= 2
  {
  }

  /**
   * A name starting with a space, for a contact without first or last name,
   * gives initials starting with 'UNDEFINED'.
   */
  lemma LeadingSpaceGivesUndefined(c: Contact)
    requires c.firstName == [] && c.lastName == [] && c.name != [] && c.name[0] == ' '
    ensures StartsWith(Initials(c), "UNDEFINED")
  {
    var parts := Split(c.name, ' ');
    assert |parts| >= 2 && parts[0] == [] by {
      SplitAtFirst(c.name, ' ');
      ConcatSplit(c.name, ' ');
      CountAtFirst(c.name, ' ');
      assert IndexOf(c.name, ' ') == 0;
    }
    var s := FirstOrUndefined(parts[0]) + FirstOrUndefined(parts[1]);
    assert s[..9] == "undefined";
    UpperPrefix(s, 9);
    UpperUndefined();
  }

  lemma UpperPrefix(s: string, n: nat)
    requires n <= |s|
    ensures Upper(s)[..n] == Upper(s[..n])
  {
  }

  lemma UpperUndefined()
    ensures Upper("undefined") == "UNDEFINED"
  {
  }

  /** The score of the first tier the contact matches, or 0. */
  function MatchScore(c: Contact, term: string): (score: int)
    ensures score in {0, 45, 50, 60, 75, 80, 90, 100}
  {
    var fullName, firstName, lastName := Lower(c.name), Lower(c.firstName), Lower(c.lastName);
    if fullName == term then 100
    else if StartsWith(fullName, term) then 90
    else if StartsWith(firstName, term) then 80
    else if StartsWith(lastName, term) then 75
    else if Contains(fullName, term) then 60
    else if Contains(firstName, term) then 50
    else if Contains(lastName, term) then 45
    else 0
  }

  /** A contact scores at all exactly when the term occurs in one of its lower-cased names. */
  lemma MatchScoreIffContains(c: Contact, term: string)
    ensures MatchScore(c, term) > 0 <==>
      Contains(Lower(c.name), term) || Contains(Lower(c.firstName), term) || Contains(Lower(c.lastName), term)
  {
    var fullName, firstName, lastName := Lower(c.name), Lower(c.firstName), Lower(c.lastName);
    if fullName == term {
      assert StartsWith(fullName, term);
    }
    if StartsWith(fullName, term) { StartsWithContains(fullName, term); }
    if StartsWith(firstName, term) { StartsWithContains(firstName, term); }
    if StartsWith(lastName, term) { StartsWithContains(lastName, term); }
  }

  /** An exact match of the full name outranks every other kind of match. */
  lemma ExactMatchScoresHighest(c: Contact, d: Contact, term: string)
    requires Lower(c.name) == term && Lower(d.name) != term
    ensures MatchScore(c, term) > MatchScore(d, term)
  {
  }

  /** The results the loop pushes, in contact order: every contact with a positive score. */
  function Matches(contacts: seq<Contact>, term: string): seq<SearchResult>
  {
    if contacts == [] then []
    else
      var c := contacts[|contacts| - 1];
      var score := MatchScore(c, term);
      Matches(contacts[..|contacts| - 1], term) + (if score > 0 then [SearchResult(c, score)] else [])
  }

  /** The pushed results carry their contact's score, which is positive, and miss no contact that scores. */
  lemma {:induction false} MatchesMembers(contacts: seq<Contact>, term: string)
    ensures forall r :: r in Matches(contacts, term) ==>
      r.contact in contacts && r.matchScore == MatchScore(r.contact, term) > 0
    ensures forall c :: c in contacts && MatchScore(c, term) > 0 ==> SearchResult(c, MatchScore(c, term)) in Matches(contacts, term)
  {
    if contacts != [] {
      var init := contacts[..|contacts| - 1];
      MatchesMembers(init, term);
      assert contacts == init + [contacts[|contacts| - 1]];
    }
  }

  /** Non-increasing by score. */
  predicate ByScore(rs: seq<SearchResult>) {
    forall i, j :: 0 <= i < j < |rs| ==> rs[i].matchScore >= rs[j].matchScore
  }

  /** The results with score `k`, in order. */
  function WithScore(rs: seq<SearchResult>, k: int): seq<SearchResult> {
    if rs == [] then [] else (if rs[0].matchScore == k then [rs[0]] else []) + WithScore(rs[1..], k)
  }

  /** `x` placed before the first result that does not score higher. */
  function InsertByScore(x: SearchResult, rs: seq<SearchResult>): (r: seq<SearchResult>)
    ensures |r| == |rs| + 1
    ensures multiset(r) == multiset(rs) + multiset{x}
  {
    if rs == [] || rs[0].matchScore <= x.matchScore then [x] + rs
    else
      assert rs == [rs[0]] + rs[1..];
      [rs[0]] + InsertByScore(x, rs[1..])
  }

  /**
   * `results.sort((a, b) => b.matchScore - a.matchScore)`: the sort is stable,
   * so it is the insertion sort that keeps equal scores in input order.
   */
  function SortByScore(rs: seq<SearchResult>): (r: seq<SearchResult>)
    ensures multiset(r) == multiset(rs)
  {
    if rs == [] then []
    else
      assert rs == [rs[0]] + rs[1..];
      InsertByScore(rs[0], SortByScore(rs[1..]))
  }

  /** Inserting below a bound keeps every score below it. */
  lemma {:induction false} InsertByScoreBounded(x: SearchResult, rs: seq<SearchResult>, m: int)
    requires x.matchScore <= m
    requires forall i :: 0 <= i < |rs| ==> rs[i].matchScore <= m
    ensures forall j :: 0 <= j < |InsertByScore(x, rs)| ==> InsertByScore(x, rs)[j].matchScore <= m
  {
    if rs != [] && rs[0].matchScore > x.matchScore {
      InsertByScoreBounded(x, rs[1..], m);
    }
  }

  lemma {:induction false} InsertByScoreSorted(x: SearchResult, rs: seq<SearchResult>)
    requires ByScore(rs)
    ensures ByScore(InsertByScore(x, rs))
  {
    if rs != [] && rs[0].matchScore > x.matchScore {
      InsertByScoreSorted(x, rs[1..]);
      InsertByScoreBounded(x, rs[1..], rs[0].matchScore);
    }
  }

  /** Inserting `x` adds it to its own score class ahead of the others there. */
  lemma {:induction false} InsertByScoreStable(x: SearchResult, rs: seq<SearchResult>, k: int)
    ensures WithScore(InsertByScore(x, rs), k) == (if x.matchScore == k then [x] else []) + WithScore(rs, k)
  {
    if rs == [] || rs[0].matchScore <= x.matchScore {
      var r := [x] + rs;
      assert r[0] == x && r[1..] == rs;
    } else {
      InsertByScoreStable(x, rs[1..], k);
      var r := [rs[0]] + InsertByScore(x, rs[1..]);
      assert r[0] == rs[0] && r[1..] == InsertByScore(x, rs[1..]);
    }
  }

  /** The sort orders by non-increasing score. */
  lemma {:induction false} SortByScoreSorted(rs: seq<SearchResult>)
    ensures ByScore(SortByScore(rs))
  {
    if rs != [] {
      SortByScoreSorted(rs[1..]);
      InsertByScoreSorted(rs[0], SortByScore(rs[1..]));
    }
  }

  /** The sort is stable: the results of each score keep their input order. */
  lemma {:induction false} SortByScoreStable(rs: seq<SearchResult>, k: int)
    ensures WithScore(SortByScore(rs), k) == WithScore(rs, k)
  {
    if rs != [] {
      SortByScoreStable(rs[1..], k);
      InsertByScoreStable(rs[0], SortByScore(rs[1..]), k);
    }
  }

  /** `searchContacts`. */
  method SearchContacts(contacts: seq<Contact>, query: string) returns (results: seq<SearchResult>)
    ensures IsBlank(query) ==>
      |results| == |contacts| && forall i :: 0 <= i < |contacts| ==> results[i] == SearchResult(contacts[i], 0)
    ensures !IsBlank(query) ==> results == SortByScore(Matches(contacts, Trim(Lower(query))))
  {
    if IsBlank(query) {
      return seq(|contacts|, i requires 0 <= i < |contacts| => SearchResult(contacts[i], 0));
    }
    var searchTerm := Trim(Lower(query));
    var found: seq<SearchResult> := [];
    var i := 0;
    while i < |contacts|
      invariant 0 <= i <= |contacts|
      invariant found == Matches(contacts[..i], searchTerm)
    {
      var matchScore := MatchScore(contacts[i], searchTerm);
      if matchScore > 0 {
        found := found + [SearchResult(contacts[i], matchScore)];
      }
      assert contacts[..i + 1][..i] == contacts[..i];
      i := i + 1;
    }
    assert contacts[..i] == contacts;
    results := SortByScore(found);
  }

  /**
   * What a search with a non-blank query returns: contacts whose lower-cased
   * names contain the term, each with its tier score, best first, ties in
   * contact order.
   */
  lemma SearchResultsMeaning(contacts: seq<Contact>, term: string, c: Contact)
    ensures var rs := SortByScore(Matches(contacts, term));
      && ByScore(rs)
      && (forall k :: WithScore(rs, k) == WithScore(Matches(contacts, term), k))
      && (SearchResult(c, MatchScore(c, term)) in rs <==> c in contacts && MatchScore(c, term) > 0)
      && (forall r :: r in rs ==> r.matchScore == MatchScore(r.contact, term) > 0)
  {
    var m := Matches(contacts, term);
    var rs := SortByScore(m);
    SortByScoreSorted(m);
    forall k ensures WithScore(rs, k) == WithScore(m, k) {
      SortByScoreStable(m, k);
    }
    MatchesMembers(contacts, term);
    assert forall r :: r in rs <==> r in multiset(m);
  }
}
