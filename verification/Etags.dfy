/** Entity tags of snapshot responses and the If-None-Match comparison, on the
    level of header text. */
module Etags {

  function Digit(d: nat): char
    requires d < 10
  {
    "0123456789"[d]
  }

  function Decimal(n: nat): string {
    if n < 10 then [Digit(n)] else Decimal(n / 10) + [Digit(n % 10)]
  }

  // Identifiers accepted in a source's configuration.
  predicate IdentifierCharacter(c: char) {
    'a' <= c <= 'z' || 'A' <= c <= 'Z' || '0' <= c <= '9' || c == '.' || c == '_' || c == '-'
  }

  predicate ValidSourceId(id: string) {
    && 0 < |id| <= 64 && id != "." && id != ".."
    && forall c :: c in id ==> IdentifierCharacter(c)
  }

  // The tag's text between the quotes.
  function Opaque(sourceId: string, observedAtMs: nat, responseRevision: nat): string {
    sourceId + "-" + Decimal(observedAtMs) + "-" + Decimal(responseRevision)
  }

  function Etag(sourceId: string, observedAtMs: nat, responseRevision: nat): string {
    "W/\"" + Opaque(sourceId, observedAtMs, responseRevision) + "\""
  }

  // --- tags are distinct ---------------------------------------------------------

  lemma DigitInjective(a: nat, b: nat)
    requires a < 10 && b < 10 && Digit(a) == Digit(b)
    ensures a == b
  {
  }

  lemma {:induction false} DecimalDigits(n: nat)
    ensures Decimal(n) != [] && forall c :: c in Decimal(n) ==> '0' <= c <= '9'
  {
    if n >= 10 {
      DecimalDigits(n / 10);
    }
  }

  lemma {:induction false} DecimalInjective(a: nat, b: nat)
    requires Decimal(a) == Decimal(b)
    ensures a == b
  {
    DecimalDigits(a / 10);
    DecimalDigits(b / 10);
    assert Decimal(a)[|Decimal(a)| - 1] == Digit(a % 10) && Decimal(b)[|Decimal(b)| - 1] == Digit(b % 10);
    DigitInjective(a % 10, b % 10);
    if a >= 10 && b >= 10 {
      assert Decimal(a)[..|Decimal(a)| - 1] == Decimal(a / 10);
      assert Decimal(b)[..|Decimal(b)| - 1] == Decimal(b / 10);
      DecimalInjective(a / 10, b / 10);
    }
  }

  // The first dash is where the digits end.
  lemma {:induction false} SplitAtDash(a: string, x: string, b: string, y: string)
    requires a + "-" + x == b + "-" + y
    requires '-' !in a && '-' !in b
    ensures a == b && x == y
  {
    var whole := a + "-" + x;
    assert whole[|a|] == '-' && forall i :: 0 <= i < |a| ==> whole[i] == a[i] != '-';
    assert whole == b + "-" + y;
    assert whole[|b|] == '-' && forall i :: 0 <= i < |b| ==> whole[i] == b[i] != '-';
    assert |a| == |b|;
    assert a == whole[..|a|] == b;
    assert x == whole[|a| + 1..] == y;
  }

  /** Tags of one source are equal, even weakly, only for the same revision. */
  lemma OpaqueInjective(sourceId: string, observed: nat, revision: nat, observed': nat, revision': nat)
    requires Opaque(sourceId, observed, revision) == Opaque(sourceId, observed', revision')
    ensures observed == observed' && revision == revision'
  {
    var n := |sourceId| + 1;
    var a, b := Opaque(sourceId, observed, revision), Opaque(sourceId, observed', revision');
    assert a[n..] == Decimal(observed) + "-" + Decimal(revision);
    assert b[n..] == Decimal(observed') + "-" + Decimal(revision');
    DecimalDigits(observed);
    DecimalDigits(observed');
    SplitAtDash(Decimal(observed), Decimal(revision), Decimal(observed'), Decimal(revision'));
    DecimalInjective(observed, observed');
    DecimalInjective(revision, revision');
  }

  // --- weak comparison -----------------------------------------------------------

  function Weak(value: string): string {
    if "W/" <= value then value[2..] else value
  }

  lemma WeakEtag(sourceId: string, observedAtMs: nat, responseRevision: nat)
    ensures Weak(Etag(sourceId, observedAtMs, responseRevision))
            == "\"" + Opaque(sourceId, observedAtMs, responseRevision) + "\""
  {
    var tag := Etag(sourceId, observedAtMs, responseRevision);
    assert tag == "W/" + ("\"" + Opaque(sourceId, observedAtMs, responseRevision) + "\"");
    assert "W/" <= tag;
  }

  lemma WeakDistinct(sourceId: string, observed: nat, revision: nat, observed': nat, revision': nat)
    requires Weak(Etag(sourceId, observed, revision)) == Weak(Etag(sourceId, observed', revision'))
    ensures observed == observed' && revision == revision'
  {
    WeakEtag(sourceId, observed, revision);
    WeakEtag(sourceId, observed', revision');
    var a, b := Opaque(sourceId, observed, revision), Opaque(sourceId, observed', revision');
    assert a == ("\"" + a + "\"")[1..|a| + 1];
    assert b == ("\"" + b + "\"")[1..|b| + 1];
    OpaqueInjective(sourceId, observed, revision, observed', revision');
  }

  // --- the If-None-Match header ----------------------------------------------------

  // Header values with other characters are skipped.
  predicate Readable(line: string) {
    forall c :: c in line ==> c == '\t' || ' ' <= c <= '~'
  }

  predicate Blank(c: char) {
    c == ' ' || c == '\t'
  }

  function Split(value: string): (parts: seq<string>)
    ensures parts != []
  {
    if value == [] then [[]]
    else
      var parts := Split(value[1..]);
      if value[0] == ',' then [[]] + parts else [[value[0]] + parts[0]] + parts[1..]
  }

  function TrimStart(value: string): string {
    if value != [] && Blank(value[0]) then TrimStart(value[1..]) else value
  }

  function TrimEnd(value: string): string {
    if value != [] && Blank(value[|value| - 1]) then TrimEnd(value[..|value| - 1]) else value
  }

  function Trim(value: string): string {
    TrimEnd(TrimStart(value))
  }

  predicate CandidateMatches(candidate: string, currentEtag: string) {
    candidate == "*" || Weak(candidate) == Weak(currentEtag)
  }

  predicate IfNoneMatchMatches(lines: seq<string>, currentEtag: string) {
    exists line :: line in lines && Readable(line)
      && exists part :: part in Split(line) && CandidateMatches(Trim(part), currentEtag)
  }

  // A list of tags as a client writes it.
  function Listing(tags: seq<string>): string {
    if tags == [] then ""
    else if |tags| == 1 then tags[0]
    else tags[0] + ", " + Listing(tags[1..])
  }

  // Text that survives splitting and trimming: tags do.
  predicate Plain(tag: string) {
    tag != [] && Readable(tag) && ',' !in tag && !Blank(tag[0]) && !Blank(tag[|tag| - 1])
  }

  lemma {:induction false} SplitPlain(tag: string)
    requires ',' !in tag
    ensures Split(tag) == [tag]
  {
    if tag != [] {
      SplitPlain(tag[1..]);
      assert [tag[0]] + tag[1..] == tag;
    }
  }

  lemma {:induction false} SplitFirst(tag: string, rest: string)
    requires ',' !in tag
    ensures Split(tag + "," + rest) == [tag] + Split(rest)
  {
    var value := tag + "," + rest;
    if tag == [] {
      assert value == "," + rest && value[1..] == rest;
    } else {
      assert value[1..] == tag[1..] + "," + rest;
      SplitFirst(tag[1..], rest);
      assert [tag[0]] + tag[1..] == tag;
    }
  }

  lemma TrimPlain(tag: string)
    requires Plain(tag)
    ensures Trim(tag) == tag && Trim(" " + tag) == tag
  {
    assert (" " + tag)[1..] == tag;
    assert TrimStart(" " + tag) == TrimStart(tag) == tag;
  }

  lemma SplitSpaced(value: string)
    ensures Split(" " + value) == [" " + Split(value)[0]] + Split(value)[1..]
  {
    assert (" " + value)[1..] == value;
  }

  ghost predicate TrimsTo(parts: seq<string>, tags: seq<string>) {
    && |parts| == |tags|
    && forall i :: 0 <= i < |parts| ==> parts[i] == tags[i] || parts[i] == " " + tags[i]
  }

  /** Splitting and trimming a written list gives the tags back. */
  lemma {:induction false} ListingRoundTrip(tags: seq<string>)
    requires tags != [] && forall t :: t in tags ==> Plain(t)
    ensures TrimsTo(Split(Listing(tags)), tags) && Split(Listing(tags))[0] == tags[0]
    ensures Readable(Listing(tags))
    decreases |tags|
  {
    assert Plain(tags[0]);
    if |tags| == 1 {
      SplitPlain(tags[0]);
    } else {
      var rest := Listing(tags[1..]);
      ListingRoundTrip(tags[1..]);
      assert Listing(tags) == tags[0] + "," + (" " + rest);
      SplitFirst(tags[0], " " + rest);
      SplitSpaced(rest);
      var parts := Split(Listing(tags));
      assert parts == [tags[0]] + ([" " + tags[1]] + Split(rest)[1..]);
      forall i | 0 <= i < |parts| ensures parts[i] == tags[i] || parts[i] == " " + tags[i] {
        if i >= 2 {
          assert parts[i] == Split(rest)[i - 1] && tags[i] == tags[1..][i - 1];
        }
      }
    }
  }

  lemma EtagPlain(sourceId: string, observedAtMs: nat, responseRevision: nat)
    requires ValidSourceId(sourceId)
    ensures Plain(Etag(sourceId, observedAtMs, responseRevision))
  {
    DecimalDigits(observedAtMs);
    DecimalDigits(responseRevision);
    var tag := Etag(sourceId, observedAtMs, responseRevision);
    assert tag[0] == 'W' && tag[|tag| - 1] == '"';
    forall c | c in tag ensures ' ' < c <= '~' && c != ',' {
      assert c in sourceId || c in Decimal(observedAtMs) || c in Decimal(responseRevision) || c in "W/\"-";
    }
  }

  /** For clients that send lists of plain tags, the header matches exactly when
      some sent tag equals the current one weakly. */
  lemma HeaderMatches(lists: seq<seq<string>>, lines: seq<string>, currentEtag: string)
    requires |lines| == |lists|
    requires forall i :: 0 <= i < |lists| ==> lists[i] != [] && lines[i] == Listing(lists[i])
    requires forall i, t :: 0 <= i < |lists| && t in lists[i] ==> Plain(t)
    ensures IfNoneMatchMatches(lines, currentEtag)
            <==> exists i, t :: 0 <= i < |lists| && t in lists[i] && CandidateMatches(t, currentEtag)
  {
    forall i | 0 <= i < |lists| ensures TrimsTo(Split(lines[i]), lists[i]) && Readable(lines[i])
                                ensures forall j :: 0 <= j < |lists[i]| ==> Trim(Split(lines[i])[j]) == lists[i][j]
    {
      ListingRoundTrip(lists[i]);
      forall j | 0 <= j < |lists[i]| ensures Trim(Split(lines[i])[j]) == lists[i][j] {
        assert lists[i][j] in lists[i];
        TrimPlain(lists[i][j]);
      }
    }
    if IfNoneMatchMatches(lines, currentEtag) {
      var line :| line in lines && Readable(line)
        && exists part :: part in Split(line) && CandidateMatches(Trim(part), currentEtag);
      var part :| part in Split(line) && CandidateMatches(Trim(part), currentEtag);
      var i :| 0 <= i < |lines| && lines[i] == line;
      var j :| 0 <= j < |Split(line)| && Split(line)[j] == part;
      assert lists[i][j] in lists[i] && CandidateMatches(lists[i][j], currentEtag);
    }
    if i, t :| 0 <= i < |lists| && t in lists[i] && CandidateMatches(t, currentEtag) {
      var j :| 0 <= j < |lists[i]| && lists[i][j] == t;
      assert lines[i] in lines && Split(lines[i])[j] in Split(lines[i]);
    }
  }
}
