/**
  Model of lib/url.ts: the URL check used by the API and the slug generator.
  The random UUID that `crypto.randomUUID()` would supply is a parameter.
*/
module Url {
  import opened UrlParser

  /** `isValidUrl`: a total wrapper around the parser. It never throws. */
  function IsValidUrl(parse: Parser, url: string): (ok: bool)
    ensures ok <==> parse(url) != Throws
  {
    match parse(url)
    case Parsed(_) => true
    case Throws => false
  }

  /** `s.replace(/-/g, "")`: every hyphen-minus removed, everything else kept in order. */
  function RemoveHyphens(s: string): (r: string)
    ensures '-' !in r
    ensures |r| <= |s|
    ensures forall c :: c != '-' ==> multiset(r)[c] == multiset(s)[c]
    ensures forall c :: c in r ==> c in s
    ensures '-' !in s ==> r == s
  {
    if s == [] then []
    else
      assert s == [s[0]] + s[1..];
      if s[0] == '-' then RemoveHyphens(s[1..])
      else [s[0]] + RemoveHyphens(s[1..])
  }

  lemma {:induction false} RemoveHyphensAppend(a: string, b: string)
    ensures RemoveHyphens(a + b) == RemoveHyphens(a) + RemoveHyphens(b)
  {
    if a == [] {
      assert a + b == b;
    } else {
      assert (a + b)[0] == a[0];
      assert (a + b)[1..] == a[1..] + b;
      RemoveHyphensAppend(a[1..], b);
    }
  }

  const SlugLength := 5

  /**
    `generateUniqueSlug`, as a function of the UUID string it would draw:
    the hyphen-free UUID cut to its first five characters (JavaScript's
    `slice(0, 5)` keeps the whole string when it is shorter). Nothing about
    existing slugs is consulted.
  */
  function GenerateUniqueSlug(uuid: string): (slug: string)
    ensures |slug| == if |RemoveHyphens(uuid)| < SlugLength then |RemoveHyphens(uuid)| else SlugLength
    ensures slug <= RemoveHyphens(uuid)
    ensures '-' !in slug
    ensures forall c :: c in slug ==> c in uuid
  {
    var compact := RemoveHyphens(uuid);
    if |compact| <= SlugLength then compact else compact[..SlugLength]
  }

  predicate IsLowerHex(c: char) {
    '0' <= c <= '9' || 'a' <= c <= 'f'
  }

  /** Positions of the hyphens in the 8-4-4-4-12 form `crypto.randomUUID()` returns. */
  predicate IsHyphenPosition(i: int) {
    i == 8 || i == 13 || i == 18 || i == 23
  }

  /** The canonical textual UUID: 36 characters, lowercase hex digits with hyphens at 8, 13, 18 and 23. */
  predicate IsCanonicalUuid(u: string) {
    |u| == 36 &&
    forall i :: 0 <= i < |u| ==> if IsHyphenPosition(i) then u[i] == '-' else IsLowerHex(u[i])
  }

  /** A UUID made of lowercase hex digits and hyphens gives a slug of lowercase hex digits. */
  lemma LowerHexSlug(uuid: string)
    requires forall c :: c in uuid ==> c == '-' || IsLowerHex(c)
    ensures forall c :: c in GenerateUniqueSlug(uuid) ==> IsLowerHex(c)
  {
  }

  /**
    For a canonical UUID the first hyphen sits at index 8, so the slug is the
    UUID's own first five characters, five lowercase hex digits.
  */
  lemma SlugOfCanonicalUuid(u: string)
    requires IsCanonicalUuid(u)
    ensures GenerateUniqueSlug(u) == u[..SlugLength]
    ensures |GenerateUniqueSlug(u)| == SlugLength
    ensures forall c :: c in GenerateUniqueSlug(u) ==> IsLowerHex(c)
  {
    var head, tail := u[..8], u[8..];
    assert u == head + tail;
    assert '-' !in head by {
      forall i | 0 <= i < |head| ensures head[i] != '-' {
        assert head[i] == u[i];
      }
    }
    RemoveHyphensAppend(head, tail);
    var compact := RemoveHyphens(u);
    assert compact == head + RemoveHyphens(tail);
    assert compact[..SlugLength] == u[..SlugLength];
    forall c | c in u[..SlugLength] ensures IsLowerHex(c) {
      var i :| 0 <= i < SlugLength && u[..SlugLength][i] == c;
      assert u[i] == c;
    }
  }

  /**
    Slug derivation is deterministic in the UUID and never looks at the store,
    so two different canonical UUIDs can yield the same slug.
  */
  lemma SlugsCanCollide()
    ensures var u1, u2 := "0123abcd-0000-4000-8000-000000000001", "0123abcd-0000-4000-8000-000000000002";
      IsCanonicalUuid(u1) && IsCanonicalUuid(u2) && u1 != u2 &&
      GenerateUniqueSlug(u1) == GenerateUniqueSlug(u2) == "0123a"
  {
    var u1, u2 := "0123abcd-0000-4000-8000-000000000001", "0123abcd-0000-4000-8000-000000000002";
    assert u1[35] != u2[35];
    SlugOfCanonicalUuid(u1);
    SlugOfCanonicalUuid(u2);
  }
}
