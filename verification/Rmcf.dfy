/** Configuration read from an ACPI package: the translator of nested packages, and the way of writing it undoes. */
module Rmcf {
  import opened Options

  datatype Pair = Pair(key: string, value: Obj)

  /** A property object. A dictionary lists its entries in the order they were added. */
  datatype Obj = Str(text: string) | Num(value: int) | Bool(flag: bool) | Arr(items: seq<Obj>) | Dict(pairs: seq<Pair>)

  // ---- The translator

  /** The translation, if there is one, and what became of the object, which may be edited in place. */
  datatype Translation = Translation(result: Option<Obj>, after: Obj)

  /** Adds an entry, or replaces the one of the same key. */
  function SetObject(d: seq<Pair>, key: string, value: Obj): seq<Pair> {
    if d == [] then [Pair(key, value)]
    else if d[0].key == key then [Pair(key, value)] + d[1..]
    else [d[0]] + SetObject(d[1..], key, value)
  }

  function TranslateText(text: string): Option<Obj> {
    if text == ">y" then Some(Bool(true))
    else if text == ">n" then Some(Bool(false))
    else if text == ">>y" || text == ">>n" then Some(Str(text[1..]))
    else None
  }

  function TranslateEntry(o: Obj): Translation
    decreases o
  {
    match o
    case Arr(items) => TranslateArray(items)
    case Str(text) => Translation(TranslateText(text), o)
    case _ => Translation(None, o)
  }

  /** What is used in the place of an entry. */
  function Resolved(t: Translation): Obj {
    if t.result.Some? then t.result.value else t.after
  }

  /** An array that starts with an empty one stays an array; any other is a list of keys and values. */
  function TranslateArray(items: seq<Obj>): Translation
    decreases items, 1
  {
    if items == [] then Translation(None, Arr([]))
    else if items[0] == Arr([]) then
      var translated := TranslateItems(items[1..]);
      Translation(Some(Arr(translated)), Arr(translated))
    else if |items| % 2 == 1 then Translation(None, Arr(items))
    else
      var b := TranslatePairs(items, []);
      Translation(if b.dict.Some? then Some(Dict(b.dict.value)) else None, Arr(b.after))
  }

  function TranslateItems(items: seq<Obj>): (r: seq<Obj>)
    ensures |r| == |items|
    decreases items
  {
    if items == [] then [] else [Resolved(TranslateEntry(items[0]))] + TranslateItems(items[1..])
  }

  /** The dictionary, unless a key is no string, and the array with its values as they were left. */
  datatype Built = Built(dict: Option<seq<Pair>>, after: seq<Obj>)

  function TranslatePairs(items: seq<Obj>, dict: seq<Pair>): Built
    requires |items| % 2 == 0
    decreases items, 0
  {
    if items == [] then Built(Some(dict), [])
    else if !items[0].Str? then Built(None, items)
    else
      var t := TranslateEntry(items[1]);
      var rest := TranslatePairs(items[2..], SetObject(dict, items[0].text, Resolved(t)));
      Built(rest.dict, [items[0], t.after] + rest.after)
  }

  // ---- When there is a translation

  /** The array can be read as an array or as a dictionary. */
  predicate Readable(items: seq<Obj>) {
    items != []
    && (items[0] == Arr([]) || (|items| % 2 == 0 && forall k :: 0 <= k < |items| && k % 2 == 0 ==> items[k].Str?))
  }

  lemma {:induction false} PairsNeedKeys(items: seq<Obj>, dict: seq<Pair>)
    requires |items| % 2 == 0
    ensures TranslatePairs(items, dict).dict.Some? <==> forall k :: 0 <= k < |items| && k % 2 == 0 ==> items[k].Str?
    decreases |items|
  {
    if items != [] && items[0].Str? {
      PairsNeedKeys(items[2..], SetObject(dict, items[0].text, Resolved(TranslateEntry(items[1]))));
      var rest := items[2..];
      assert (forall k :: 0 <= k < |rest| && k % 2 == 0 ==> rest[k].Str?)
             <==> (forall k :: 2 <= k < |items| && k % 2 == 0 ==> items[k].Str?) by {
        assert forall k :: 2 <= k < |items| ==> items[k] == rest[k - 2];
        assert forall k :: 0 <= k < |rest| ==> rest[k] == items[k + 2];
      }
    }
  }

  /** An array is translated exactly if it can be read. */
  lemma TranslatesReadable(items: seq<Obj>)
    ensures TranslateArray(items).result.Some? <==> Readable(items)
  {
    if items != [] && items[0] != Arr([]) && |items| % 2 == 0 {
      PairsNeedKeys(items, []);
    }
  }

  // ---- What a list of keys and values means

  function Lookup(d: seq<Pair>, key: string): Option<Obj> {
    if d == [] then None else if d[0].key == key then Some(d[0].value) else Lookup(d[1..], key)
  }

  function KeyList(d: seq<Pair>): seq<string> {
    if d == [] then [] else [d[0].key] + KeyList(d[1..])
  }

  /** An entry is set and no other one changes; a new key comes last. */
  lemma {:induction false} SetObjectSets(d: seq<Pair>, key: string, value: Obj, k: string)
    ensures Lookup(SetObject(d, key, value), k) == if k == key then Some(value) else Lookup(d, k)
    ensures KeyList(SetObject(d, key, value)) == KeyList(d) + if Lookup(d, key).Some? then [] else [key]
  {
    if d != [] && d[0].key != key {
      var rest := SetObject(d[1..], key, value);
      SetObjectSets(d[1..], key, value, k);
      assert ([d[0]] + rest)[1..] == rest;
    } else if d != [] {
      assert ([Pair(key, value)] + d[1..])[1..] == d[1..];
    }
  }

  /** What the list says of a key: its last value counts. */
  function LastValue(items: seq<Obj>, key: string): Option<Obj>
    requires |items| % 2 == 0
  {
    if items == [] then None
    else if LastValue(items[2..], key).Some? then LastValue(items[2..], key)
    else if items[0] == Str(key) then Some(Resolved(TranslateEntry(items[1])))
    else None
  }

  lemma {:induction false} LastValueCounts(items: seq<Obj>, dict: seq<Pair>, key: string)
    requires |items| % 2 == 0 && TranslatePairs(items, dict).dict.Some?
    ensures Lookup(TranslatePairs(items, dict).dict.value, key)
         == if LastValue(items, key).Some? then LastValue(items, key) else Lookup(dict, key)
    decreases |items|
  {
    if items != [] {
      var value := Resolved(TranslateEntry(items[1]));
      SetObjectSets(dict, items[0].text, value, key);
      LastValueCounts(items[2..], SetObject(dict, items[0].text, value), key);
    }
  }

  /** Every key of a translated dictionary has the last value that the list gives for it. */
  lemma DictionaryMeans(items: seq<Obj>, key: string)
    requires |items| % 2 == 0 && items != [] && items[0] != Arr([]) && TranslateArray(items).result.Some?
    ensures TranslateArray(items).result.value.Dict?
    ensures Lookup(TranslateArray(items).result.value.pairs, key) == LastValue(items, key)
  {
    LastValueCounts(items, [], key);
  }

  // ---- What is edited in place

  /** Texts and single values stay as they are; an array that starts with an empty one becomes its translation; and arrays
      that are no list of pairs are left alone. */
  lemma EntryAfter(o: Obj)
    ensures !o.Arr? ==> TranslateEntry(o).after == o
    ensures o.Arr? && o.items != [] && o.items[0] == Arr([]) ==> TranslateEntry(o).result == Some(TranslateEntry(o).after)
    ensures o.Arr? && (o.items == [] || (o.items[0] != Arr([]) && |o.items| % 2 == 1)) ==>
              TranslateEntry(o) == Translation(None, o)
  {
    if o.Arr? {
      assert TranslateEntry(o) == TranslateArray(o.items);
    }
  }

  ghost predicate StringsUpTo(items: seq<Obj>, n: nat) {
    forall k :: 0 <= k < n && k < |items| && k % 2 == 0 ==> items[k].Str?
  }

  lemma StringsFurther(items: seq<Obj>, n: nat)
    requires |items| >= 2 && items[0].Str?
    ensures StringsUpTo(items, n + 2) <==> StringsUpTo(items[2..], n)
  {
    var rest := items[2..];
    if StringsUpTo(items, n + 2) {
      assert forall k :: 0 <= k < |rest| ==> rest[k] == items[k + 2];
    }
    if StringsUpTo(rest, n) {
      assert forall k :: 2 <= k < |items| ==> items[k] == rest[k - 2];
    }
  }

  /** A list of keys and values keeps its keys, and of the values those before the first key that is no text are edited. */
  lemma {:induction false} PairsAfter(items: seq<Obj>, dict: seq<Pair>, k: nat)
    requires |items| % 2 == 0 && k < |items|
    ensures var after := TranslatePairs(items, dict).after;
            && |after| == |items|
            && after[k] == if k % 2 == 1 && StringsUpTo(items, k) then TranslateEntry(items[k]).after else items[k]
    decreases |items|
  {
    if items[0].Str? {
      var next := SetObject(dict, items[0].text, Resolved(TranslateEntry(items[1])));
      if k >= 2 {
        PairsAfter(items[2..], next, k - 2);
        StringsFurther(items, k - 2);
      } else if |items| > 2 {
        PairsAfter(items[2..], next, 0);
      }
    } else {
      assert k > 0 ==> !StringsUpTo(items, k);
    }
  }

  /** The four texts that are translated. */
  lemma TextMeans(text: string)
    ensures TranslateText(">y") == Some(Bool(true)) && TranslateText(">n") == Some(Bool(false))
    ensures TranslateText(">>y") == Some(Str(">y")) && TranslateText(">>n") == Some(Str(">n"))
    ensures TranslateText(text).None? <==> text != ">y" && text != ">n" && text != ">>y" && text != ">>n"
  {
    assert |">>y"| == |">>n"| == 3 && |">y"| == |">n"| == 2;
    assert ">y"[1] == 'y' && ">n"[1] == 'n' && ">>y"[2] == 'y' && ">>n"[2] == 'n';
    assert ">>y"[1..] == ">y" && ">>n"[1..] == ">n";
  }

  // ---- Writing a value as a package

  function PrintText(text: string): string {
    if text == ">y" || text == ">n" then ">" + text else text
  }

  function Print(v: Obj): Obj
    decreases v
  {
    match v
    case Str(text) => Str(PrintText(text))
    case Num(_) => v
    case Bool(flag) => Str(if flag then ">y" else ">n")
    case Arr(items) => Arr([Arr([])] + PrintAll(items))
    case Dict(pairs) => Arr(PrintPairs(pairs))
  }

  function PrintAll(items: seq<Obj>): (r: seq<Obj>)
    ensures |r| == |items|
    decreases items
  {
    if items == [] then [] else [Print(items[0])] + PrintAll(items[1..])
  }

  function PrintPairs(pairs: seq<Pair>): (r: seq<Obj>)
    ensures |r| == 2 * |pairs|
    decreases pairs
  {
    if pairs == [] then [] else [Str(pairs[0].key), Print(pairs[0].value)] + PrintPairs(pairs[1..])
  }

  /** What the driver reads for a package. */
  function Read(o: Obj): Obj {
    Resolved(TranslateEntry(o))
  }

  // ---- The round trip

  /** No key occurs twice in a dictionary, as in every dictionary object. */
  ghost predicate Proper(v: Obj)
    decreases v
  {
    match v
    case Arr(items) => ProperAll(items)
    case Dict(pairs) => ProperPairs(pairs)
    case _ => true
  }

  ghost predicate ProperAll(items: seq<Obj>)
    decreases items
  {
    items != [] ==> Proper(items[0]) && ProperAll(items[1..])
  }

  ghost predicate ProperPairs(pairs: seq<Pair>)
    decreases pairs
  {
    pairs != [] ==> Proper(pairs[0].value) && pairs[0].key !in Keys(pairs[1..]) && ProperPairs(pairs[1..])
  }

  function Keys(pairs: seq<Pair>): (s: set<string>) {
    if pairs == [] then {} else {pairs[0].key} + Keys(pairs[1..])
  }

  /** The values that can be written: no literal ">>y" or ">>n" and no empty dictionary anywhere. */
  predicate Printable(v: Obj)
    decreases v
  {
    match v
    case Str(text) => text != ">>y" && text != ">>n"
    case Num(_) => true
    case Bool(_) => true
    case Arr(items) => PrintableAll(items)
    case Dict(pairs) => pairs != [] && PrintablePairs(pairs)
  }

  predicate PrintableAll(items: seq<Obj>)
    decreases items
  {
    items == [] || (Printable(items[0]) && PrintableAll(items[1..]))
  }

  predicate PrintablePairs(pairs: seq<Pair>)
    decreases pairs
  {
    pairs == [] || (Printable(pairs[0].value) && PrintablePairs(pairs[1..]))
  }

  /** Reading back what was written, entry by entry. */
  function ReadPairs(pairs: seq<Pair>): (r: seq<Pair>)
    ensures |r| == |pairs|
    decreases pairs
  {
    if pairs == [] then [] else [Pair(pairs[0].key, Read(Print(pairs[0].value)))] + ReadPairs(pairs[1..])
  }

  lemma {:induction false} SetObjectAppends(d: seq<Pair>, key: string, value: Obj)
    requires key !in Keys(d)
    ensures SetObject(d, key, value) == d + [Pair(key, value)]
  {
    if d != [] {
      SetObjectAppends(d[1..], key, value);
      assert d == [d[0]] + d[1..];
    }
  }

  lemma {:induction false} KeysAppend(d: seq<Pair>, p: Pair)
    ensures Keys(d + [p]) == Keys(d) + {p.key}
  {
    if d == [] {
      assert [p][1..] == [];
      assert d + [p] == [p];
    } else {
      KeysAppend(d[1..], p);
      assert (d + [p])[1..] == d[1..] + [p];
    }
  }

  /** The printed pairs come back in order behind those read before. */
  lemma {:induction false} PairsComeBack(pairs: seq<Pair>, dict: seq<Pair>)
    requires ProperPairs(pairs) && Keys(pairs) !! Keys(dict)
    ensures TranslatePairs(PrintPairs(pairs), dict).dict == Some(dict + ReadPairs(pairs))
    decreases |pairs|
  {
    var printed := PrintPairs(pairs);
    if pairs == [] {
      assert dict + [] == dict;
    } else {
      var p := pairs[0];
      var next := dict + [Pair(p.key, Read(Print(p.value)))];
      assert printed[2..] == PrintPairs(pairs[1..]);
      SetObjectAppends(dict, p.key, Read(Print(p.value)));
      KeysAppend(dict, Pair(p.key, Read(Print(p.value))));
      PairsComeBack(pairs[1..], next);
      assert next + ReadPairs(pairs[1..]) == dict + ReadPairs(pairs);
    }
  }

  lemma DictComesBack(pairs: seq<Pair>)
    requires ProperPairs(pairs) && pairs != []
    ensures Read(Print(Dict(pairs))) == Dict(ReadPairs(pairs))
  {
    var printed := PrintPairs(pairs);
    assert printed[0] == Str(pairs[0].key);
    PairsComeBack(pairs, []);
    assert [] + ReadPairs(pairs) == ReadPairs(pairs);
    assert TranslateEntry(Arr(printed)) == TranslateArray(printed);
  }

  lemma ArrComesBack(items: seq<Obj>)
    ensures Read(Print(Arr(items))) == Arr(TranslateItems(PrintAll(items)))
  {
    var printed := [Arr([])] + PrintAll(items);
    assert printed[0] == Arr([]) && printed[1..] == PrintAll(items);
    assert TranslateEntry(Arr(printed)) == TranslateArray(printed);
  }

  lemma TextComesBack(text: string)
    ensures Read(Print(Str(text))) == Str(text) <==> Printable(Str(text))
  {
    var printed := PrintText(text);
    assert |">>y"| == |">>n"| == 3 && |">y"| == |">n"| == 2;
    assert ">y"[1] == 'y' && ">n"[1] == 'n' && ">>y"[2] == 'y' && ">>n"[2] == 'n';
    assert ">>y"[1..] == ">y" && ">>n"[1..] == ">n";
    if text == ">y" || text == ">n" {
      assert printed == (if text == ">y" then ">>y" else ">>n");
      assert TranslateText(printed) == Some(Str(text));
    } else if text == ">>y" || text == ">>n" {
      assert TranslateText(printed) == Some(Str(text[1..]));
    } else {
      assert TranslateText(printed) == None;
    }
  }

  lemma PlainComesBack(v: Obj)
    requires v.Num? || v.Bool?
    ensures Read(Print(v)) == v
  {
    assert |">y"| == |">n"| == 2 && ">y"[1] == 'y' && ">n"[1] == 'n';
  }

  lemma EmptyDictIsLost()
    ensures Read(Print(Dict([]))) == Arr([])
  {
    assert PrintPairs([]) == [];
  }

  /** A value is read back as it was written if and only if it is printable. */
  lemma {:induction false} RoundTrip(v: Obj)
    requires Proper(v)
    ensures Read(Print(v)) == v <==> Printable(v)
    decreases v
  {
    hide Read, Print, PrintText;
    match v
    case Str(text) => TextComesBack(text);
    case Num(_) => PlainComesBack(v);
    case Bool(_) => PlainComesBack(v);
    case Arr(items) =>
      ArrComesBack(items);
      ItemsRoundTrip(items);
    case Dict(pairs) =>
      if pairs == [] {
        EmptyDictIsLost();
      } else {
        DictComesBack(pairs);
        PairsRoundTrip(pairs);
      }
  }

  lemma {:induction false} ItemsRoundTrip(items: seq<Obj>)
    requires ProperAll(items)
    ensures TranslateItems(PrintAll(items)) == items <==> PrintableAll(items)
    decreases items
  {
    if items != [] {
      RoundTrip(items[0]);
      ItemsRoundTrip(items[1..]);
      var back := TranslateItems(PrintAll(items));
      assert PrintAll(items)[1..] == PrintAll(items[1..]);
      assert back[1..] == TranslateItems(PrintAll(items[1..])) && back[0] == Read(Print(items[0]));
      assert items == [items[0]] + items[1..];
    }
  }

  lemma {:induction false} PairsRoundTrip(pairs: seq<Pair>)
    requires ProperPairs(pairs)
    ensures ReadPairs(pairs) == pairs <==> PrintablePairs(pairs)
    decreases pairs
  {
    if pairs != [] {
      RoundTrip(pairs[0].value);
      PairsRoundTrip(pairs[1..]);
      var back := ReadPairs(pairs);
      assert back[1..] == ReadPairs(pairs[1..]) && back[0] == Pair(pairs[0].key, Read(Print(pairs[0].value)));
      assert pairs == [pairs[0]] + pairs[1..];
    }
  }

  /** Values that can be written have different packages. */
  lemma PrintIsInjective(v: Obj, w: Obj)
    requires Proper(v) && Proper(w) && Printable(v) && Printable(w) && Print(v) == Print(w)
    ensures v == w
  {
    RoundTrip(v);
    RoundTrip(w);
  }
}
