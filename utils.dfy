/** The display and collection helpers: the choices made by the number
    formatters, the hex colour codec, `chunk` and `groupBy`. */
module Utils {
  import opened Wrappers
  import opened Seqs
  import Text

  // Number formatting

  /** What a formatter renders: `value.toFixed(decimals) + suffix`. The
      digit rendering of `toFixed` itself is not part of this model. */
  datatype Rendering = Rendering(value: real, decimals: nat, suffix: string)

  function Abs(x: real): real {
    if x < 0.0 then -x else x
  }

  /** `formatNumber`: billions, millions or thousands get their suffix and
      the value is scaled to match; anything below a thousand in magnitude
      is rendered as it is. */
  function FormatNumber(value: real, decimals: nat): (r: Rendering)
    ensures r.decimals == decimals
    ensures r.suffix == "B" <==> Abs(value) >= 1000000000.0
    ensures r.suffix == "M" <==> 1000000.0 <= Abs(value) < 1000000000.0
    ensures r.suffix == "K" <==> 1000.0 <= Abs(value) < 1000000.0
    ensures r.suffix == "" <==> Abs(value) < 1000.0
    ensures r.suffix == "B" ==> r.value * 1000000000.0 == value
    ensures r.suffix == "M" ==> r.value * 1000000.0 == value
    ensures r.suffix == "K" ==> r.value * 1000.0 == value
    ensures r.suffix == "" ==> r.value == value
  {
    if Abs(value) >= 1000000000.0 then Rendering(value / 1000000000.0, decimals, "B")
    else if Abs(value) >= 1000000.0 then Rendering(value / 1000000.0, decimals, "M")
    else if Abs(value) >= 1000.0 then Rendering(value / 1000.0, decimals, "K")
    else Rendering(value, decimals, "")
  }

  /** A symbol that mentions "USDT" mentions "USD", so the formatter's
      two-way test is the test for "USD" alone. */
  lemma UsdtMentionsUsd(symbol: string)
    ensures Text.Contains(symbol, "USDT") ==> Text.Contains(symbol, "USD")
  {
    if Text.Contains(symbol, "USDT") {
      Text.ContainsPrefix(symbol, "USDT", 3);
      assert "USDT"[..3] == "USD";
    }
  }

  /** `formatPrice`: dollar-quoted symbols get 2 decimals from 1 upwards
      and 6 below; every other symbol gets 8. */
  function FormatPrice(price: real, symbol: string): (r: Rendering)
    ensures r.value == price && r.suffix == ""
    ensures Text.Contains(symbol, "USD") && price >= 1.0 ==> r.decimals == 2
    ensures Text.Contains(symbol, "USD") && price < 1.0 ==> r.decimals == 6
    ensures !Text.Contains(symbol, "USD") ==> r.decimals == 8
  {
    if Text.Contains(symbol, "USDT") || Text.Contains(symbol, "USD") then
      UsdtMentionsUsd(symbol);
      if price >= 1.0 then Rendering(price, 2, "") else Rendering(price, 6, "")
    else
      Rendering(price, 8, "")
  }

  /** `formatQuantity`: from a thousand up the abbreviated form with 2
      decimals, 3 decimals from 1, 6 below. */
  function FormatQuantity(quantity: real): (r: Rendering)
    ensures quantity >= 1000.0 ==> r == FormatNumber(quantity, 2) && r.suffix != ""
    ensures 1.0 <= quantity < 1000.0 ==> r == Rendering(quantity, 3, "")
    ensures quantity < 1.0 ==> r == Rendering(quantity, 6, "")
  {
    if quantity >= 1000.0 then FormatNumber(quantity, 2)
    else if quantity >= 1.0 then Rendering(quantity, 3, "")
    else Rendering(quantity, 6, "")
  }

  // Hex colours

  /** A colour with channels as fractions of 255. */
  datatype Rgb = Rgb(r: real, g: real, b: real)

  predicate AllHex(s: string) {
    forall i :: 0 <= i < |s| ==> Text.IsHexDigit(s[i])
  }

  /** The six digits the pattern `^#?([a-f\d]{2}){3}$` (any case) accepts:
      six hex digits, optionally after one '#'. */
  function HexDigits(hex: string): (d: Option<string>)
    ensures d.Some? <==> (|hex| == 6 && AllHex(hex)) || (|hex| == 7 && hex[0] == '#' && AllHex(hex[1..]))
    ensures d.Some? ==> |d.value| == 6 && AllHex(d.value) && (hex == d.value || hex == "#" + d.value)
  {
    if |hex| == 7 && hex[0] == '#' && AllHex(hex[1..]) then Some(hex[1..])
    else if |hex| == 6 && AllHex(hex) then Some(hex)
    else None
  }

  /** `parseInt` of the two digits at `2 * i`. */
  function ByteAt(d: string, i: nat): (v: nat)
    requires |d| == 6 && AllHex(d) && i < 3
    ensures v < 256
  {
    16 * Text.HexValue(d[2 * i]) + Text.HexValue(d[2 * i + 1])
  }

  /** A byte as a fraction of 255. */
  function Fraction(k: nat): real {
    k as real / 255.0
  }

  /** `hexToRgb`: each pair of digits divided by 255, or null when the text
      is not a colour. */
  function HexToRgb(hex: string): (c: Option<Rgb>)
    ensures c.Some? <==> HexDigits(hex).Some?
  {
    match HexDigits(hex)
    case None => None
    case Some(d) => Some(Rgb(Fraction(ByteAt(d, 0)), Fraction(ByteAt(d, 1)), Fraction(ByteAt(d, 2))))
  }

  /** `Math.round`: halves go up. */
  function Round(x: real): int {
    (x + 0.5).Floor
  }

  /** `toHex`: the channel scaled to 255 and rounded, in lower-case hex,
      padded to two digits when it has one. */
  function ToHex(c: real): string {
    var h := Text.IntHex(Round(c * 255.0));
    if |h| == 1 then "0" + h else h
  }

  function RgbToHex(r: real, g: real, b: real): string {
    "#" + ToHex(r) + ToHex(g) + ToHex(b)
  }

  /** A byte's channel value comes back as its two hex digits. */
  lemma ToHexOfByte(k: nat)
    requires k < 256
    ensures ToHex(Fraction(k)) == [Text.HexChar(k / 16), Text.HexChar(k % 16)]
  {
    assert Fraction(k) * 255.0 == k as real;
    assert Round(k as real) == k;
    if k < 16 {
      assert Text.IntHex(k) == [Text.HexChar(k)];
    } else {
      assert Text.IntHex(k) == [Text.HexChar(k / 16), Text.HexChar(k % 16)];
    }
  }

  /** The two digits of a pair come back lower-cased. */
  lemma PairRoundTrip(a: char, b: char, k: nat)
    requires Text.IsHexDigit(a) && Text.IsHexDigit(b)
    requires k == 16 * Text.HexValue(a) + Text.HexValue(b)
    ensures ToHex(Fraction(k)) == [Text.LowerChar(a), Text.LowerChar(b)]
  {
    ToHexOfByte(k);
    assert k / 16 == Text.HexValue(a) && k % 16 == Text.HexValue(b);
    Text.HexCharOfValue(a);
    Text.HexCharOfValue(b);
  }

  /** Three two-character pieces after '#'. */
  lemma JoinPieces(a: char, b: char, c: char, d: char, e: char, f: char,
                   p0: string, p1: string, p2: string)
    requires p0 == [a, b] && p1 == [c, d] && p2 == [e, f]
    ensures "#" + p0 + p1 + p2 == "#" + [a, b, c, d, e, f]
  {
    assert p0 + p1 + p2 == [a, b, c, d, e, f];
  }

  lemma LowerSix(d: string)
    requires |d| == 6
    ensures Text.Lower(d) == [Text.LowerChar(d[0]), Text.LowerChar(d[1]), Text.LowerChar(d[2]),
                              Text.LowerChar(d[3]), Text.LowerChar(d[4]), Text.LowerChar(d[5])]
  {
  }

  /** Decoding a colour and encoding it again gives '#' and the digits in
      lower case. */
  lemma {:induction false} HexRoundTrip(hex: string)
    requires HexDigits(hex).Some?
    ensures var c := HexToRgb(hex).value;
            RgbToHex(c.r, c.g, c.b) == "#" + Text.Lower(HexDigits(hex).value)
  {
    var d := HexDigits(hex).value;
    var c := HexToRgb(hex).value;
    assert c == Rgb(Fraction(ByteAt(d, 0)), Fraction(ByteAt(d, 1)), Fraction(ByteAt(d, 2)));
    PairRoundTrip(d[0], d[1], ByteAt(d, 0));
    PairRoundTrip(d[2], d[3], ByteAt(d, 1));
    PairRoundTrip(d[4], d[5], ByteAt(d, 2));
    LowerSix(d);
    JoinPieces(Text.LowerChar(d[0]), Text.LowerChar(d[1]), Text.LowerChar(d[2]),
               Text.LowerChar(d[3]), Text.LowerChar(d[4]), Text.LowerChar(d[5]),
               ToHex(c.r), ToHex(c.g), ToHex(c.b));
  }

  /** The encoding of three bytes: '#' and two lower-case digits each. */
  lemma HexOfBytes(r: nat, g: nat, b: nat)
    requires r < 256 && g < 256 && b < 256
    ensures RgbToHex(Fraction(r), Fraction(g), Fraction(b)) ==
            "#" + [Text.HexChar(r / 16), Text.HexChar(r % 16), Text.HexChar(g / 16),
                   Text.HexChar(g % 16), Text.HexChar(b / 16), Text.HexChar(b % 16)]
  {
    ToHexOfByte(r);
    ToHexOfByte(g);
    ToHexOfByte(b);
    JoinPieces(Text.HexChar(r / 16), Text.HexChar(r % 16), Text.HexChar(g / 16),
               Text.HexChar(g % 16), Text.HexChar(b / 16), Text.HexChar(b % 16),
               ToHex(Fraction(r)), ToHex(Fraction(g)), ToHex(Fraction(b)));
  }

  /** Encoding channels that are whole multiples of 1/255 and decoding the
      result gives the channels back. */
  lemma {:induction false} RgbRoundTrip(r: nat, g: nat, b: nat)
    requires r < 256 && g < 256 && b < 256
    ensures HexToRgb(RgbToHex(Fraction(r), Fraction(g), Fraction(b))) == Some(Rgb(Fraction(r), Fraction(g), Fraction(b)))
  {
    var d := [Text.HexChar(r / 16), Text.HexChar(r % 16), Text.HexChar(g / 16),
              Text.HexChar(g % 16), Text.HexChar(b / 16), Text.HexChar(b % 16)];
    HexOfBytes(r, g, b);
    DecodeDigits(d, r, g, b);
  }

  /** Decoding '#' and six known digits. */
  lemma DecodeDigits(d: string, r: nat, g: nat, b: nat)
    requires r < 256 && g < 256 && b < 256
    requires d == [Text.HexChar(r / 16), Text.HexChar(r % 16), Text.HexChar(g / 16),
                   Text.HexChar(g % 16), Text.HexChar(b / 16), Text.HexChar(b % 16)]
    ensures HexToRgb("#" + d) == Some(Rgb(Fraction(r), Fraction(g), Fraction(b)))
  {
    var hex := "#" + d;
    assert AllHex(d);
    assert hex[1..] == d;
    assert HexDigits(hex) == Some(d);
    Text.HexValueOfChar(r / 16);
    Text.HexValueOfChar(r % 16);
    Text.HexValueOfChar(g / 16);
    Text.HexValueOfChar(g % 16);
    Text.HexValueOfChar(b / 16);
    Text.HexValueOfChar(b % 16);
    assert ByteAt(d, 0) == r && ByteAt(d, 1) == g && ByteAt(d, 2) == b;
  }

  // chunk

  /** The chunks laid end to end. */
  function Flatten<T>(chunks: seq<seq<T>>): seq<T> {
    if chunks == [] then [] else Flatten(chunks[..|chunks| - 1]) + chunks[|chunks| - 1]
  }

  /** `n` items in chunks of `size`, all full but a last non-empty one:
      there are chunks exactly when there are items, and then the chunks
      but the last cannot hold all `n` items while all of them can, so
      there are ⌈n / size⌉ of them. */
  lemma {:induction false} ChunkCount<T>(chunks: seq<seq<T>>, size: nat)
    requires size > 0
    requires forall i :: 0 <= i < |chunks| ==> 0 < |chunks[i]| <= size
    requires forall i :: 0 <= i < |chunks| - 1 ==> |chunks[i]| == size
    ensures chunks == [] <==> |Flatten(chunks)| == 0
    ensures chunks != [] ==> (|chunks| - 1) * size < |Flatten(chunks)| <= |chunks| * size
  {
    if chunks != [] {
      var init := chunks[..|chunks| - 1];
      var last := chunks[|chunks| - 1];
      assert forall i :: 0 <= i < |init| ==> |init[i]| == size;
      FullChunks(init, size);
      assert |Flatten(chunks)| == |init| * size + |last|;
      assert |chunks| * size == |init| * size + size;
    }
  }

  /** Full chunks hold `size` items each. */
  lemma {:induction false} FullChunks<T>(chunks: seq<seq<T>>, size: nat)
    requires forall i :: 0 <= i < |chunks| ==> |chunks[i]| == size
    ensures |Flatten(chunks)| == |chunks| * size
  {
    if chunks != [] {
      var init := chunks[..|chunks| - 1];
      FullChunks(init, size);
      assert |Flatten(chunks)| == |Flatten(init)| + size;
      assert |chunks| * size == |init| * size + size;
    }
  }

  /** `chunk`: the array cut into consecutive pieces of `size` items, the
      last piece holding what remains. */
  method Chunk<T>(a: seq<T>, size: nat) returns (chunks: seq<seq<T>>)
    requires size > 0
    ensures Flatten(chunks) == a
    ensures forall i :: 0 <= i < |chunks| ==> 0 < |chunks[i]| <= size
    ensures forall i :: 0 <= i < |chunks| - 1 ==> |chunks[i]| == size
    ensures chunks == [] <==> a == []
    ensures chunks != [] ==> (|chunks| - 1) * size < |a| <= |chunks| * size
  {
    chunks := [];
    var i := 0;
    while i < |a|
      invariant i <= |a|
      invariant Flatten(chunks) == a[..i]
      invariant forall k :: 0 <= k < |chunks| ==> |chunks[k]| == size
      decreases |a| - i
    {
      var end := if i + size <= |a| then i + size else |a|;
      var piece := a[i..end];
      if end < i + size {
        // The last piece: the loop stops after it.
        chunks := chunks + [piece];
        assert Flatten(chunks) == a[..i] + piece;
        assert a[..i] + a[i..end] == a[..end];
        i := i + size;
        assert Flatten(chunks) == a;
        assert forall k :: 0 <= k < |chunks| ==> 0 < |chunks[k]| <= size;
        ChunkCount(chunks, size);
        return;
      }
      chunks := chunks + [piece];
      assert a[..i] + a[i..end] == a[..end];
      i := end;
    }
    assert a[..i] == a;
    ChunkCount(chunks, size);
  }

  // groupBy

  /** The items of `a` whose key is `k`, in their order in `a`. */
  function Members<T, K(==,!new)>(a: seq<T>, key: T -> K, k: K): (r: seq<T>)
    ensures |r| <= |a|
    ensures forall x :: x in r ==> x in a && key(x) == k
  {
    if a == [] then []
    else
      var init := a[..|a| - 1];
      Members(init, key, k) + (if key(a[|a| - 1]) == k then [a[|a| - 1]] else [])
  }

  /** The keys of `a`'s items, each once, in the order they first appear. */
  function KeysInOrder<T, K(==,!new)>(a: seq<T>, key: T -> K): (ks: seq<K>)
    ensures Distinct(ks)
    ensures forall k :: k in ks <==> exists i :: 0 <= i < |a| && key(a[i]) == k
  {
    if a == [] then []
    else
      var init := a[..|a| - 1];
      var ks := KeysInOrder(init, key);
      assert forall i :: 0 <= i < |init| ==> a[i] == init[i];
      if key(a[|a| - 1]) in ks then ks else ks + [key(a[|a| - 1])]
  }

  /** The sizes of the groups of `ks`, added up. */
  function GroupSizes<T, K(==,!new)>(a: seq<T>, key: T -> K, ks: seq<K>): nat {
    if ks == [] then 0 else GroupSizes(a, key, ks[..|ks| - 1]) + |Members(a, key, ks[|ks| - 1])|
  }

  /** One more item adds one to the group of its key and nothing elsewhere. */
  lemma {:induction false} GroupSizesSnoc<T, K(!new)>(a: seq<T>, x: T, key: T -> K, ks: seq<K>)
    requires Distinct(ks)
    ensures GroupSizes(a + [x], key, ks) == GroupSizes(a, key, ks) + (if key(x) in ks then 1 else 0)
  {
    assert (a + [x])[..|a + [x]| - 1] == a;
    if ks != [] {
      var init := ks[..|ks| - 1];
      assert Distinct(init);
      GroupSizesSnoc(a, x, key, init);
      assert key(x) in ks <==> key(x) in init || key(x) == ks[|ks| - 1];
      assert key(x) == ks[|ks| - 1] ==> key(x) !in init;
    }
  }

  /** No item has a key that never appears. */
  lemma {:induction false} NoMembers<T, K(!new)>(a: seq<T>, key: T -> K, k: K)
    requires k !in KeysInOrder(a, key)
    ensures Members(a, key, k) == []
  {
    if a != [] {
      var init := a[..|a| - 1];
      assert forall i :: 0 <= i < |init| ==> init[i] == a[i];
      NoMembers(init, key, k);
      assert key(a[|a| - 1]) != k;
    }
  }

  /** Every item lands in exactly one group: the group sizes add up to the
      number of items. */
  lemma {:induction false} GroupSizesSum<T, K(!new)>(a: seq<T>, key: T -> K)
    ensures GroupSizes(a, key, KeysInOrder(a, key)) == |a|
  {
    if a != [] {
      var init, x := a[..|a| - 1], a[|a| - 1];
      assert a == init + [x];
      var ks := KeysInOrder(init, key);
      GroupSizesSum(init, key);
      GroupSizesSnoc(init, x, key, ks);
      if key(x) !in ks {
        var ks' := ks + [key(x)];
        assert ks'[..|ks'| - 1] == ks;
        NoMembers(init, key, key(x));
        assert Members(a, key, key(x)) == [x];
      }
    }
  }

  /** `groupBy`: each item appended to the group of its key; the groups'
      keys are returned in the order they were created. */
  method GroupBy<T, K(==,!new)>(a: seq<T>, key: T -> K) returns (groups: map<K, seq<T>>, keys: seq<K>)
    ensures keys == KeysInOrder(a, key)
    ensures forall k :: k in groups <==> k in keys
    ensures forall k :: k in groups ==> groups[k] == Members(a, key, k)
  {
    groups, keys := map[], [];
    for i := 0 to |a|
      invariant keys == KeysInOrder(a[..i], key)
      invariant forall k :: k in groups <==> k in keys
      invariant forall k :: k in groups ==> groups[k] == Members(a[..i], key, k)
    {
      var k := key(a[i]);
      assert a[..i + 1][..i] == a[..i];
      if k !in groups {
        NoMembers(a[..i], key, k);
        keys := keys + [k];
        groups := groups[k := [a[i]]];
      } else {
        groups := groups[k := groups[k] + [a[i]]];
      }
    }
    assert a[..|a|] == a;
  }
}
