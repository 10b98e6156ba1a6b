/**
 * The card database builder: the EN/IT card-map merge of
 * `download_and_hash` and the disabled image hash. Fetching, image files
 * and pickling are outside the model; the fetched card lists arrive as
 * values.
 */
module Downloader {
  import opened Wrappers

  /** The 8x8 boolean perceptual hash, flattened. */
  type Hash = h: seq<bool> | |h| == 64 witness seq(64, _ => false)

  const ENABLE_HASHING := false

  /**
   * `compute_phash`: while hashing is disabled it returns None for every
   * image. `hashImage` stands for the DCT pipeline, which is not modelled.
   */
  function ComputePhash(imagePath: string, hashImage: string -> Option<Hash>): (r: Option<Hash>)
    ensures !ENABLE_HASHING ==> r == None
  {
    if !ENABLE_HASHING then None else hashImage(imagePath)
  }

  /** One card of the card-info API: its id, name and cropped image URL. */
  datatype ApiCard = ApiCard(id: int, name: string, imageUrlCropped: string)

  /** One value of `card_map`. */
  datatype CardRecord = CardRecord(name_en: string, name_it: Option<string>, image: string, hash: Option<Hash>)

  function DigitChar(d: nat): char
    requires d < 10
  {
    ('0' as int + d) as char
  }

  function NatToString(n: nat): (s: string)
    ensures |s| > 0 && s[0] != '-'
    ensures forall i :: 0 <= i < |s| ==> '0' <= s[i] <= '9'
  {
    if n < 10 then [DigitChar(n)] else NatToString(n / 10) + [DigitChar(n % 10)]
  }

  /** Python's `str` of an integer: a `-` exactly for negative ids, then decimal digits. */
  function IdKey(id: int): (r: string)
    ensures |r| > 0 && (r[0] == '-' <==> id < 0)
    ensures forall i :: (if id < 0 then 1 else 0) <= i < |r| ==> '0' <= r[i] <= '9'
    ensures id < 0 ==> |r| > 1
  {
    if id < 0 then "-" + NatToString(-id) else NatToString(id)
  }

  lemma {:induction false} NatToStringInjective(a: nat, b: nat)
    requires NatToString(a) == NatToString(b)
    ensures a == b
  {
    if a >= 10 && b >= 10 {
      var sa, sb := NatToString(a), NatToString(b);
      assert sa[..|sa| - 1] == NatToString(a / 10) && sb[..|sb| - 1] == NatToString(b / 10);
      NatToStringInjective(a / 10, b / 10);
      assert DigitChar(a % 10) == sa[|sa| - 1] == sb[|sb| - 1] == DigitChar(b % 10);
    }
  }

  /** Distinct ids give distinct keys, so duplicate keys are exactly duplicate ids. */
  lemma IdKeyInjective(a: int, b: int)
    requires IdKey(a) == IdKey(b)
    ensures a == b
  {
    if a < 0 && b < 0 {
      assert IdKey(a)[1..] == NatToString(-a) && IdKey(b)[1..] == NatToString(-b);
      NatToStringInjective(-a, -b);
    } else if a >= 0 && b >= 0 {
      NatToStringInjective(a, b);
    }
  }

  /** The entry the EN loop stores for a card. */
  function EnRecord(c: ApiCard): CardRecord
  {
    CardRecord(c.name, None, c.imageUrlCropped, None)
  }

  /** `card_map` after the EN loop. */
  function EnMap(en: seq<ApiCard>): map<string, CardRecord>
  {
    if en == [] then map[]
    else EnMap(en[..|en| - 1])[IdKey(en[|en| - 1].id) := EnRecord(en[|en| - 1])]
  }

  /** `card_map` after the IT loop over `it`, starting from `m`. */
  function MergeIt(m: map<string, CardRecord>, it: seq<ApiCard>): map<string, CardRecord>
  {
    if it == [] then m
    else
      var prev := MergeIt(m, it[..|it| - 1]);
      var key := IdKey(it[|it| - 1].id);
      if key in prev then prev[key := prev[key].(name_it := Some(it[|it| - 1].name))] else prev
  }

  /** The IT list: empty when its fetch failed. */
  function ItCards(fetched: Option<seq<ApiCard>>): seq<ApiCard>
  {
    if fetched.Some? then fetched.value else []
  }

  /** `download_and_hash` up to the dump: build the map with the two loops. */
  method DownloadAndHash(en: seq<ApiCard>, itFetched: Option<seq<ApiCard>>) returns (cardMap: map<string, CardRecord>)
    ensures cardMap == MergeIt(EnMap(en), ItCards(itFetched))
  {
    var cardsIt := if itFetched.Some? then itFetched.value else [];
    cardMap := map[];
    for i := 0 to |en|
      invariant cardMap == EnMap(en[..i])
    {
      assert en[..i + 1][..i] == en[..i];
      var card := en[i];
      cardMap := cardMap[IdKey(card.id) := EnRecord(card)];
    }
    assert en[..|en|] == en;
    ghost var enMap := cardMap;
    for i := 0 to |cardsIt|
      invariant cardMap == MergeIt(enMap, cardsIt[..i])
    {
      assert cardsIt[..i + 1][..i] == cardsIt[..i];
      var card := cardsIt[i];
      var cid := IdKey(card.id);
      if cid in cardMap {
        cardMap := cardMap[cid := cardMap[cid].(name_it := Some(card.name))];
      }
    }
    assert cardsIt[..|cardsIt|] == cardsIt;
  }

  /** The keys of the EN map are exactly the `str(id)` of the EN cards. */
  lemma {:induction false} EnMapKeys(en: seq<ApiCard>, key: string)
    ensures key in EnMap(en) <==> exists i :: 0 <= i < |en| && IdKey(en[i].id) == key
  {
    if en != [] {
      var init := en[..|en| - 1];
      EnMapKeys(init, key);
      if key in EnMap(init) {
        var i :| 0 <= i < |init| && IdKey(init[i].id) == key;
        assert en[i] == init[i];
      }
      if exists i :: 0 <= i < |en| && IdKey(en[i].id) == key {
        var i :| 0 <= i < |en| && IdKey(en[i].id) == key;
        if i < |init| {
          assert init[i] == en[i];
        }
      }
    }
  }

  /** Each key holds the record of the last EN card with that id: a later duplicate overwrites an earlier one. */
  lemma {:induction false} EnMapLastWins(en: seq<ApiCard>, i: int)
    requires 0 <= i < |en|
    requires forall j :: i < j < |en| ==> IdKey(en[j].id) != IdKey(en[i].id)
    ensures IdKey(en[i].id) in EnMap(en) && EnMap(en)[IdKey(en[i].id)] == EnRecord(en[i])
  {
    var last := |en| - 1;
    if i < last {
      var init := en[..last];
      assert init[i] == en[i];
      forall j | i < j < |init| ensures IdKey(init[j].id) != IdKey(init[i].id) {
        assert init[j] == en[j];
      }
      EnMapLastWins(init, i);
    }
  }

  /** The IT loop adds no key: IT-only ids never enter the map. */
  lemma {:induction false} MergeItKeys(m: map<string, CardRecord>, it: seq<ApiCard>)
    ensures MergeIt(m, it).Keys == m.Keys
  {
    if it != [] {
      MergeItKeys(m, it[..|it| - 1]);
    }
  }

  /** The IT loop changes no field of a record but `name_it`. */
  lemma {:induction false} MergeItOnlyNames(m: map<string, CardRecord>, it: seq<ApiCard>, key: string)
    requires key in m
    ensures key in MergeIt(m, it)
    ensures MergeIt(m, it)[key] == m[key].(name_it := MergeIt(m, it)[key].name_it)
  {
    if it != [] {
      MergeItOnlyNames(m, it[..|it| - 1], key);
    }
  }

  /** A record with no IT card of its id is left as the EN loop built it. */
  lemma {:induction false} MergeItUntouched(m: map<string, CardRecord>, it: seq<ApiCard>, key: string)
    requires key in m
    requires forall j :: 0 <= j < |it| ==> IdKey(it[j].id) != key
    ensures key in MergeIt(m, it) && MergeIt(m, it)[key] == m[key]
  {
    if it != [] {
      var init := it[..|it| - 1];
      forall j | 0 <= j < |init| ensures IdKey(init[j].id) != key {
        assert init[j] == it[j];
      }
      MergeItUntouched(m, init, key);
    }
  }

  /** A record's `name_it` is the name of the last IT card with its id. */
  lemma {:induction false} MergeItLastName(m: map<string, CardRecord>, it: seq<ApiCard>, j: int)
    requires 0 <= j < |it| && IdKey(it[j].id) in m
    requires forall l :: j < l < |it| ==> IdKey(it[l].id) != IdKey(it[j].id)
    ensures IdKey(it[j].id) in MergeIt(m, it)
    ensures MergeIt(m, it)[IdKey(it[j].id)].name_it == Some(it[j].name)
  {
    var last := |it| - 1;
    var init := it[..last];
    MergeItKeys(m, init);
    if j < last {
      assert init[j] == it[j];
      forall l | j < l < |init| ensures IdKey(init[l].id) != IdKey(init[j].id) {
        assert init[l] == it[l];
      }
      MergeItLastName(m, init, j);
    }
  }

  /** When the IT fetch fails, the map is the EN-only map with every `name_it` None. */
  lemma ItFetchFailed(en: seq<ApiCard>, key: string)
    requires key in MergeIt(EnMap(en), ItCards(None))
    ensures MergeIt(EnMap(en), ItCards(None)) == EnMap(en)
    ensures EnMap(en)[key].name_it == None && EnMap(en)[key].hash == None
  {
    EnMapRecords(en, key);
  }

  /**
   * No record of the finished map holds a hash: both loops store or keep
   * `'hash': None`, and neither calls `compute_phash`.
   */
  lemma CardMapUnhashed(en: seq<ApiCard>, itFetched: Option<seq<ApiCard>>, key: string)
    requires key in MergeIt(EnMap(en), ItCards(itFetched))
    ensures MergeIt(EnMap(en), ItCards(itFetched))[key].hash == None
  {
    MergeItKeys(EnMap(en), ItCards(itFetched));
    MergeItOnlyNames(EnMap(en), ItCards(itFetched), key);
    EnMapRecords(en, key);
  }

  /** Every EN-built record carries no Italian name and no hash. */
  lemma {:induction false} EnMapRecords(en: seq<ApiCard>, key: string)
    requires key in EnMap(en)
    ensures EnMap(en)[key].name_it == None && EnMap(en)[key].hash == None
  {
    if en != [] && key != IdKey(en[|en| - 1].id) {
      EnMapRecords(en[..|en| - 1], key);
    }
  }
}
