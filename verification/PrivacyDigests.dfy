/**
 The canonical form of an install report that breaks a digest cycle: the report is scanned with its
 two privacy digests at zero, and writing the real digests afterwards does not change that form.
 */
module PrivacyDigests {
  import opened Base

  datatype Json =
    Null | Bool(b: bool) | Number(n: int) | Text(s: string) | List(items: seq<Json>) | Object(fields: map<string, Json>)

  /** What the report file holds. */
  datatype Stored = NotJson(text: string) | Document(json: Json)

  const ZERO := Text("0000000000000000000000000000000000000000000000000000000000000000")
  const PRIVACY := "privacy"
  const REPORT_KEY := "privacy_report_sha256"
  const SCAN_KEY := "privacy_self_scan_sha256"
  const DIGEST_KEYS := {REPORT_KEY, SCAN_KEY}

  predicate HasPrivacy(j: Json) { j.Object? && PRIVACY in j.fields && j.fields[PRIVACY].Object? }

  function PrivacyOf(j: Json): map<string, Json>
    requires HasPrivacy(j)
  {
    j.fields[PRIVACY].fields
  }

  function WithPrivacy(j: Json, p: map<string, Json>): Json
    requires j.Object?
  {
    Object(j.fields[PRIVACY := Object(p)])
  }

  function ResetValue(key: string, value: Json): Json { if key in DIGEST_KEYS then ZERO else value }

  /** The digests that are present, at zero. */
  function Zeroed(p: map<string, Json>): map<string, Json> {
    map k | k in p :: ResetValue(k, p[k])
  }

  function Canonical(j: Json): Json {
    if HasPrivacy(j) then WithPrivacy(j, Zeroed(PrivacyOf(j))) else j
  }

  /** The text that is scanned, for any rendering of documents (keys are sorted, so it depends on the
      document alone) and any masking of the run directory. */
  function ScannedText(stored: Stored, render: Json -> string, mask: string -> string): string {
    match stored
    case NotJson(text) => mask(text)
    case Document(j) => if j.Object? then mask(render(Canonical(j))) else mask(render(j))
  }

  /** Equal up to the values of the two digests. */
  predicate SameButDigests(a: Json, b: Json) {
    if HasPrivacy(a) && HasPrivacy(b) then
      && a.fields - {PRIVACY} == b.fields - {PRIVACY}
      && PrivacyOf(a).Keys == PrivacyOf(b).Keys
      && forall k :: k in PrivacyOf(a) && k !in DIGEST_KEYS ==> PrivacyOf(a)[k] == PrivacyOf(b)[k]
    else a == b
  }

  lemma ZeroedSameIff(p: map<string, Json>, q: map<string, Json>)
    ensures Zeroed(p) == Zeroed(q) <==>
      p.Keys == q.Keys && forall k :: k in p && k !in DIGEST_KEYS ==> p[k] == q[k]
  {
    var x, y := Zeroed(p), Zeroed(q);
    assert x.Keys == p.Keys && y.Keys == q.Keys;
    if x == y {
      forall k | k in p && k !in DIGEST_KEYS ensures p[k] == q[k] { assert x[k] == p[k] && y[k] == q[k]; }
    }
  }

  lemma WithPrivacySameIff(a: Json, b: Json, p: map<string, Json>, q: map<string, Json>)
    requires a.Object? && b.Object?
    ensures WithPrivacy(a, p) == WithPrivacy(b, q) <==> a.fields - {PRIVACY} == b.fields - {PRIVACY} && p == q
  {
    var x, y := a.fields[PRIVACY := Object(p)], b.fields[PRIVACY := Object(q)];
    assert x - {PRIVACY} == a.fields - {PRIVACY} && y - {PRIVACY} == b.fields - {PRIVACY};
    assert x[PRIVACY] == Object(p) && y[PRIVACY] == Object(q);
    assert x == (a.fields - {PRIVACY})[PRIVACY := Object(p)];
    assert y == (b.fields - {PRIVACY})[PRIVACY := Object(q)];
  }

  /** The canonical form forgets the two digests and nothing else. */
  lemma CanonicalForgetsDigests(a: Json, b: Json)
    requires HasPrivacy(a) <==> HasPrivacy(b)
    ensures Canonical(a) == Canonical(b) <==> SameButDigests(a, b)
  {
    if HasPrivacy(a) {
      ZeroedSameIff(PrivacyOf(a), PrivacyOf(b));
      WithPrivacySameIff(a, b, Zeroed(PrivacyOf(a)), Zeroed(PrivacyOf(b)));
    }
  }

  predicate Provisional(p: map<string, Json>) {
    REPORT_KEY in p && p[REPORT_KEY] == ZERO && SCAN_KEY in p && p[SCAN_KEY] == ZERO
  }

  function Finalized(j: Json, report: Json, scan: Json): Json
    requires HasPrivacy(j)
  {
    WithPrivacy(j, PrivacyOf(j)[REPORT_KEY := report][SCAN_KEY := scan])
  }

  /** Writing any two final digests over provisional ones keeps the canonical form. */
  lemma FinalizingKeepsCanonical(j: Json, report: Json, scan: Json)
    requires HasPrivacy(j) && Provisional(PrivacyOf(j))
    ensures Canonical(Finalized(j, report, scan)) == Canonical(j)
  {
    var k := Finalized(j, report, scan);
    var p := PrivacyOf(j);
    assert PrivacyOf(k) == p[REPORT_KEY := report][SCAN_KEY := scan];
    assert PrivacyOf(k).Keys == p.Keys;
    WithPrivacySameIff(j, k, Zeroed(p), Zeroed(PrivacyOf(k)));
    ZeroedSameIff(p, PrivacyOf(k));
  }

  class ReportFile {
    var stored: Stored

    constructor (stored: Stored)
      ensures this.stored == stored
    {
      this.stored := stored;
    }

    /** The canonical payload of the file, with the digests reset one by one. */
    method CanonicalPayload() returns (payload: Option<Json>)
      ensures payload == if stored.Document? && stored.json.Object? then Some(Canonical(stored.json)) else None
    {
      if !stored.Document? || !stored.json.Object? { return None; }
      var j := stored.json;
      if !HasPrivacy(j) { return Some(j); }
      var privacy := PrivacyOf(j);
      var keys := DIGEST_KEYS;
      while keys != {}
        invariant keys <= DIGEST_KEYS
        invariant privacy.Keys == PrivacyOf(j).Keys
        invariant forall k :: k in privacy ==> privacy[k] == if k in DIGEST_KEYS - keys then ZERO else PrivacyOf(j)[k]
        decreases |keys|
      {
        assert (forall x :: x !in keys) ==> keys == {};
        var key :| key in keys;
        keys := keys - {key};
        if key in privacy { privacy := privacy[key := ZERO]; }
      }
      assert privacy == Zeroed(PrivacyOf(j));
      payload := Some(WithPrivacy(j, privacy));
    }

    /** Writes the two final digests; refused unless both are still provisional. */
    method FinalizeDigests(report: Json, scan: Json) returns (ok: bool)
      modifies this
      ensures ok <==> old(stored).Document? && HasPrivacy(old(stored).json) && Provisional(PrivacyOf(old(stored).json))
      ensures stored == if ok then Document(Finalized(old(stored).json, report, scan)) else old(stored)
      ensures forall render, mask :: ScannedText(stored, render, mask) == ScannedText(old(stored), render, mask)
    {
      ok := false;
      if !stored.Document? || !HasPrivacy(stored.json) { return; }
      var privacy := PrivacyOf(stored.json);
      if REPORT_KEY !in privacy || privacy[REPORT_KEY] != ZERO { return; }
      if SCAN_KEY !in privacy || privacy[SCAN_KEY] != ZERO { return; }
      FinalizingKeepsCanonical(stored.json, report, scan);
      privacy := privacy[REPORT_KEY := report];
      privacy := privacy[SCAN_KEY := scan];
      stored := Document(WithPrivacy(stored.json, privacy));
      ok := true;
    }
  }

  /** Digests are final once: unless both new values are zero again, a second attempt is refused. */
  lemma FinalOnce(j: Json, report: Json, scan: Json)
    requires HasPrivacy(j)
    ensures Provisional(PrivacyOf(Finalized(j, report, scan))) <==> report == ZERO && scan == ZERO
  {
    KeysDiffer();
    assert PrivacyOf(Finalized(j, report, scan)) == PrivacyOf(j)[REPORT_KEY := report][SCAN_KEY := scan];
  }

  lemma KeysDiffer()
    ensures REPORT_KEY != SCAN_KEY
  {
    assert |REPORT_KEY| != |SCAN_KEY|;
  }
}
