/**
 * Locating an InfraEnv id in a URL: the leftmost substring with the lowercase
 * 8-4-4-4-12 layout of a UUID (the string form of section 3 of RFC 4122). The
 * pattern has a fixed width, so a regular-expression search for it is a scan
 * over windows of that width, from left to right.
 */
module Uuid {
  import opened Wrappers

  /** Width of the textual UUID form. */
  const Width := 36

  /** Offsets of the four dashes inside the textual form. */
  predicate IsDashOffset(k: int)
  {
    k == 8 || k == 13 || k == 18 || k == 23
  }

  /** The class `[0-9a-f]`. */
  predicate IsLowerHex(c: char)
  {
    '0' <= c <= '9' || 'a' <= c <= 'f'
  }

  /** A character that may appear somewhere in the textual form. */
  predicate IsUuidChar(c: char)
  {
    IsLowerHex(c) || c == '-'
  }

  /** `w` matches `[0-9a-f]{8}-[0-9a-f]{4}-[0-9a-f]{4}-[0-9a-f]{4}-[0-9a-f]{12}` exactly. */
  predicate UuidShaped(w: string)
  {
    |w| == Width &&
    forall k :: 0 <= k < Width ==> if IsDashOffset(k) then w[k] == '-' else IsLowerHex(w[k])
  }

  /** The window of `s` that starts at `i` is a UUID. */
  predicate MatchesAt(s: string, i: int)
  {
    0 <= i && i + Width <= |s| && UuidShaped(s[i..i + Width])
  }

  /** The first position at or after `i` where a UUID window starts, if there is one. */
  function FirstMatchFrom(s: string, i: nat): (r: Option<nat>)
    ensures r.Some? ==>
      i <= r.value && MatchesAt(s, r.value) &&
      forall j :: i <= j < r.value ==> !MatchesAt(s, j)
    ensures r.None? ==> forall j :: i <= j ==> !MatchesAt(s, j)
    decreases |s| - i
  {
    if i + Width > |s| then None
    else if MatchesAt(s, i) then Some(i)
    else FirstMatchFrom(s, i + 1)
  }

  /**
   * `get_infraenv_id_from_url`: the leftmost UUID-shaped substring of `url`,
   * or None where the source raises "Could not find infraenv ID from url".
   */
  function InfraEnvIdFromUrl(url: string): (r: Option<string>)
    ensures r.None? <==> forall j :: !MatchesAt(url, j)
    ensures r.Some? ==>
      UuidShaped(r.value) &&
      exists k :: MatchesAt(url, k) && url[k..k + Width] == r.value &&
        forall j :: 0 <= j < k ==> !MatchesAt(url, j)
  {
    match FirstMatchFrom(url, 0)
    case None => None
    case Some(k) => Some(url[k..k + Width])
  }

  /** When the first UUID window of `url` starts at `k`, that window is the id. */
  lemma LeftmostWindowIsId(url: string, k: nat)
    requires MatchesAt(url, k)
    requires forall j :: 0 <= j < k ==> !MatchesAt(url, j)
    ensures InfraEnvIdFromUrl(url) == Some(url[k..k + Width])
  {
  }

  /**
   * A UUID placed right after a prefix that holds no UUID and ends in a character
   * outside the UUID alphabet (a `/`, say) is the id found, whatever follows it.
   */
  lemma EmbeddedIdIsFound(prefix: string, id: string, suffix: string)
    requires UuidShaped(id)
    requires forall j :: !MatchesAt(prefix, j)
    requires |prefix| == 0 || !IsUuidChar(prefix[|prefix| - 1])
    ensures InfraEnvIdFromUrl(prefix + id + suffix) == Some(id)
  {
    var url := prefix + id + suffix;
    var n := |prefix|;
    assert url[n..n + Width] == id;
    forall j | 0 <= j < n
      ensures !MatchesAt(url, j)
    {
      if j + Width <= n {
        assert url[j..j + Width] == prefix[j..j + Width];
        assert !MatchesAt(prefix, j);
      } else {
        var o := n - 1 - j;
        assert url[j..j + Width][o] == prefix[n - 1];
      }
    }
    LeftmostWindowIsId(url, n);
  }

  /** The worked example: the id between `/images/` and `/foo.iso` is extracted. */
  lemma ExampleIsoUrl()
    ensures InfraEnvIdFromUrl("https://x/images/" + "3fa85f64-5717-4562-b3fc-2c963f66afa6" + "/foo.iso")
         == Some("3fa85f64-5717-4562-b3fc-2c963f66afa6")
  {
    var id := "3fa85f64-5717-4562-b3fc-2c963f66afa6";
    assert UuidShaped(id);
    EmbeddedIdIsFound("https://x/images/", id, "/foo.iso");
  }

  /** The pattern is lowercase only: an id written in capitals is not found, so the source raises. */
  lemma UppercaseIdNotFound()
    ensures InfraEnvIdFromUrl("https://x/images/" + "3FA85F64-5717-4562-B3FC-2C963F66AFA6") == None
  {
    var url := "https://x/images/" + "3FA85F64-5717-4562-B3FC-2C963F66AFA6";
    assert |url| == 53 && url[18] == 'F';
    forall j
      ensures !MatchesAt(url, j)
    {
      if 0 <= j && j + Width <= |url| {
        assert url[j..j + Width][18 - j] == 'F';
      }
    }
  }
}
