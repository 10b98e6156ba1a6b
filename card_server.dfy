/**
 * The card server's two lookups over the in-memory database: `/identify`
 * (nearest perceptual hash by Hamming distance) and `/search` (substring
 * search over the English and Italian names, at most 20 hits). The
 * database is a dictionary; it is modelled as the sequence of its entries
 * in iteration order. Image decoding is outside the model: the uploaded
 * frame's hash arrives as an Option, None when it cannot be computed.
 */
module CardServer {
  import opened Wrappers
  import opened Downloader

  /** One database value, with its dictionary key `id`. */
  datatype Entry = Entry(id: string, name: string, nameEn: Option<string>, nameIt: Option<string>, hash: Hash)

  const INITIAL_MIN_DIST := 100
  const MATCH_THRESHOLD := 15
  const MAX_RESULTS := 20
  const IMAGE_BASE_URL := "https://images.ygoprodeck.com/images/cards_cropped/"

  /** The number of positions at which two hashes differ. */
  function Distance(a: seq<bool>, b: seq<bool>): (d: nat)
    requires |a| == |b|
    ensures d <= |a|
  {
    if a == [] then 0
    else Distance(a[..|a| - 1], b[..|b| - 1]) + (if a[|a| - 1] != b[|b| - 1] then 1 else 0)
  }

  lemma {:induction false} DistanceSymmetric(a: seq<bool>, b: seq<bool>)
    requires |a| == |b|
    ensures Distance(a, b) == Distance(b, a)
  {
    if a != [] {
      DistanceSymmetric(a[..|a| - 1], b[..|b| - 1]);
    }
  }

  lemma {:induction false} DistanceZeroIffEqual(a: seq<bool>, b: seq<bool>)
    requires |a| == |b|
    ensures Distance(a, b) == 0 <==> a == b
  {
    if a != [] {
      DistanceZeroIffEqual(a[..|a| - 1], b[..|b| - 1]);
      if Distance(a, b) == 0 {
        assert a == a[..|a| - 1] + [a[|a| - 1]] && b == b[..|b| - 1] + [b[|b| - 1]];
      }
    }
  }

  /** Two hashes are at most 64 apart, so any non-empty database yields a best card. */
  lemma HashDistanceBelowInitial(a: Hash, b: Hash)
    ensures Distance(a, b) <= 64 < INITIAL_MIN_DIST
  {
  }

  datatype IdentifyResult =
    | IdentifyError(message: string)
    | Match(card: string, distance: int)
    | NoMatch(distance: int)

  /** The minimum is reached at `i` and nowhere before it. */
  ghost predicate FirstNearest(db: seq<Entry>, target: Hash, i: int)
  {
    0 <= i < |db|
    && (forall j :: 0 <= j < |db| ==> Distance(target, db[i].hash) <= Distance(target, db[j].hash))
    && (forall j :: 0 <= j < i ==> Distance(target, db[i].hash) < Distance(target, db[j].hash))
  }

  /**
   * `identify_card`: the first entry at the least distance from the frame's
   * hash is a match when that distance is below 15.
   */
  method Identify(db: seq<Entry>, target: Option<Hash>) returns (r: IdentifyResult)
    ensures db == [] ==> r == IdentifyError("Database not loaded")
    ensures db != [] && target.None? ==> r == IdentifyError("Could not process image")
    ensures db != [] && target.Some? ==> !r.IdentifyError? && (r.Match? <==> r.distance < MATCH_THRESHOLD)
    ensures db != [] && target.Some? ==>
      exists i :: (FirstNearest(db, target.value, i)
        && r.distance == Distance(target.value, db[i].hash)
        && (r.Match? ==> r.card == db[i].name))
  {
    if db == [] {
      return IdentifyError("Database not loaded");
    }
    if target.None? {
      return IdentifyError("Could not process image");
    }
    var t := target.value;
    var minDist := INITIAL_MIN_DIST;
    var bestCard: Option<string> := None;
    ghost var best := -1;
    for k := 0 to |db|
      invariant -1 <= best < k
      invariant best == -1 <==> bestCard.None?
      invariant best == -1 ==> minDist == INITIAL_MIN_DIST && k == 0
      invariant best >= 0 ==> minDist == Distance(t, db[best].hash) && bestCard == Some(db[best].name)
      invariant best >= 0 ==> forall j :: 0 <= j < k ==> minDist <= Distance(t, db[j].hash)
      invariant best >= 0 ==> forall j :: 0 <= j < best ==> minDist < Distance(t, db[j].hash)
    {
      var dist := Distance(t, db[k].hash);
      if dist < minDist {
        minDist := dist;
        bestCard := Some(db[k].name);
        best := k;
      }
    }
    assert FirstNearest(db, t, best);
    if minDist < MATCH_THRESHOLD {
      return Match(bestCard.value, minDist);
    }
    return NoMatch(minDist);
  }

  function AsciiLower(c: char): char
  {
    if 'A' <= c <= 'Z' then (c as int + 32) as char else c
  }

  /** Python's `lower` on ASCII text. */
  function Lower(s: string): (r: string)
    ensures |r| == |s| && forall i :: 0 <= i < |s| ==> r[i] == AsciiLower(s[i])
    ensures forall i :: 0 <= i < |r| ==> !('A' <= r[i] <= 'Z')
    ensures forall i :: 0 <= i < |s| && !('A' <= s[i] <= 'Z') ==> r[i] == s[i]
  {
    seq(|s|, i requires 0 <= i < |s| => AsciiLower(s[i]))
  }

  /** Lower-casing twice is lower-casing once, so the loop's own lowering of a lowered query changes nothing. */
  lemma LowerIdempotent(s: string)
    ensures Lower(Lower(s)) == Lower(s)
  {
  }

  /** Lowering commutes with slicing. */
  lemma LowerSlice(s: string, i: int, j: int)
    requires 0 <= i <= j <= |s|
    ensures Lower(s)[i..j] == Lower(s[i..j])
  {
  }

  predicate OccursAt(hay: string, needle: string, i: int)
  {
    0 <= i && i + |needle| <= |hay| && hay[i..i + |needle|] == needle
  }

  /** Python's `needle in hay` on strings. */
  predicate Contains(hay: string, needle: string)
  {
    exists i :: 0 <= i <= |hay| && OccursAt(hay, needle, i)
  }

  /** The match test of the search loop; `q` is already lower-cased. */
  function EntryMatches(e: Entry, q: string): (r: bool)
    ensures r ==> Truthy(e.nameEn) || Truthy(e.nameIt)
  {
    (Truthy(e.nameEn) && Contains(Lower(e.nameEn.value), q))
    || (Truthy(e.nameIt) && Contains(Lower(e.nameIt.value), q))
  }

  /** The Italian name when there is one, else the English name. */
  function DisplayName(e: Entry): (r: string)
    requires Truthy(e.nameIt) || e.nameEn.Some?
    ensures Truthy(e.nameIt) ==> r == e.nameIt.value
    ensures !Truthy(e.nameIt) ==> r == e.nameEn.value
  {
    if Truthy(e.nameIt) then e.nameIt.value else e.nameEn.value
  }

  /** `hay` holds `needle` at `i` up to ASCII letter case. */
  predicate OccursFolded(hay: string, needle: string, i: int)
  {
    0 <= i && i + |needle| <= |hay| && Lower(hay[i..i + |needle|]) == Lower(needle)
  }

  /**
   * A name that holds the query somewhere, with the letters of either side
   * in any case, is found: the search is case-insensitive on both sides.
   */
  lemma {:induction false} CaseInsensitiveMatch(e: Entry, q: string, i: int)
    requires (Truthy(e.nameEn) && OccursFolded(e.nameEn.value, q, i)) || (Truthy(e.nameIt) && OccursFolded(e.nameIt.value, q, i))
    ensures EntryMatches(e, Lower(q))
  {
    var name := if Truthy(e.nameEn) && OccursFolded(e.nameEn.value, q, i) then e.nameEn.value else e.nameIt.value;
    LowerSlice(name, i, i + |q|);
    assert OccursAt(Lower(name), Lower(q), i);
  }

  /** The card "Dark Magician" is found by the query "DARK". */
  lemma DarkMagicianFound(id: string, hash: Hash)
    ensures EntryMatches(Entry(id, "Dark Magician", Some("Dark Magician"), None, hash), Lower("DARK"))
  {
    assert Lower("Dark Magician"[0..4]) == "dark" == Lower("DARK");
    CaseInsensitiveMatch(Entry(id, "Dark Magician", Some("Dark Magician"), None, hash), "DARK", 0);
  }

  /**
   * The name a hit shows is a non-empty name of the entry. It contains the
   * query unless the English name matched and the Italian one is shown.
   */
  lemma DisplayNameOfMatch(e: Entry, q: string)
    requires EntryMatches(e, q)
    ensures DisplayName(e) != ""
    ensures Contains(Lower(DisplayName(e)), q)
      || (Truthy(e.nameEn) && Contains(Lower(e.nameEn.value), q) && DisplayName(e) == e.nameIt.value)
  {
  }

  datatype Hit = Hit(id: string, name: string, imageUrl: string)

  /** A result row: the entry's id, its display name, and the CDN image of that same id. */
  function HitOf(e: Entry): (h: Hit)
    requires Truthy(e.nameIt) || e.nameEn.Some?
    ensures h.id == e.id && h.imageUrl == IMAGE_BASE_URL + h.id + ".jpg"
    ensures Some(h.name) == e.nameIt || Some(h.name) == e.nameEn
  {
    Hit(e.id, DisplayName(e), IMAGE_BASE_URL + e.id + ".jpg")
  }

  /** Every hit, in database order, with no limit. */
  function AllHits(db: seq<Entry>, q: string): seq<Hit>
  {
    if db == [] then []
    else
      var e := db[|db| - 1];
      AllHits(db[..|db| - 1], q) + (if EntryMatches(e, q) then [HitOf(e)] else [])
  }

  function Take<T>(s: seq<T>, n: nat): (r: seq<T>)
    ensures |r| <= n && r <= s
    ensures |s| <= n ==> r == s
  {
    if |s| <= n then s else s[..n]
  }

  datatype SearchResult = SearchError(message: string) | Results(hits: seq<Hit>)

  /** `search_card`: the first 20 hits for the lower-cased query. */
  method Search(db: seq<Entry>, q: string) returns (r: SearchResult)
    ensures db == [] ==> r == SearchError("Database not loaded")
    ensures db != [] ==> r == Results(Take(AllHits(db, Lower(q)), MAX_RESULTS))
  {
    if db == [] {
      return SearchError("Database not loaded");
    }
    var ql := Lower(q);
    var results: seq<Hit> := [];
    var count := 0;
    var k := 0;
    while k < |db|
      invariant 0 <= k <= |db|
      invariant results == AllHits(db[..k], ql) && count == |results| < MAX_RESULTS
    {
      assert db[..k + 1][..k] == db[..k];
      var e := db[k];
      if EntryMatches(e, ql) {
        results := results + [HitOf(e)];
        count := count + 1;
        if count >= MAX_RESULTS {
          AllHitsPrefix(db, ql, k + 1);
          return Results(results);
        }
      }
      k := k + 1;
    }
    assert db[..k] == db;
    return Results(results);
  }

  /** The hits of a prefix of the database begin the hits of the whole. */
  lemma {:induction false} AllHitsPrefix(db: seq<Entry>, q: string, k: nat)
    requires k <= |db|
    ensures AllHits(db[..k], q) <= AllHits(db, q)
    ensures |AllHits(db[..k], q)| == MAX_RESULTS ==> Take(AllHits(db, q), MAX_RESULTS) == AllHits(db[..k], q)
  {
    if k < |db| {
      var init := db[..|db| - 1];
      assert init[..k] == db[..k];
      AllHitsPrefix(init, q, k);
    } else {
      assert db[..k] == db;
    }
  }

  /** A hit is present exactly when some entry matches; each hit is built from a matching entry. */
  lemma {:induction false} AllHitsSound(db: seq<Entry>, q: string, h: Hit)
    requires h in AllHits(db, q)
    ensures exists i :: 0 <= i < |db| && EntryMatches(db[i], q) && h == HitOf(db[i])
  {
    var init := db[..|db| - 1];
    var e := db[|db| - 1];
    if h in AllHits(init, q) {
      AllHitsSound(init, q, h);
      var i :| 0 <= i < |init| && EntryMatches(init[i], q) && h == HitOf(init[i]);
      assert db[i] == init[i];
    } else {
      assert EntryMatches(e, q) && h == HitOf(e);
    }
  }

  /** Every matching entry contributes its hit. */
  lemma {:induction false} AllHitsComplete(db: seq<Entry>, q: string, i: int)
    requires 0 <= i < |db| && EntryMatches(db[i], q)
    ensures HitOf(db[i]) in AllHits(db, q)
  {
    var init := db[..|db| - 1];
    if i < |init| {
      assert init[i] == db[i];
      AllHitsComplete(init, q, i);
    }
  }
}
