/** The two dictionary-to-text helpers of app/utils/formatter.py. */
module Formatter {
  import opened Json
  import opened Text

  /** `strip_empty(d)`: the items of `d` whose values are truthy, in their order. */
  function StripEmpty(d: Dict): Dict
  {
    if |d| == 0 then []
    else (if Truthy(d[0].1) then [d[0]] else []) + StripEmpty(d[1..])
  }

  /** An item survives `strip_empty` exactly when it was there and its value is truthy. */
  lemma {:induction false} StripEmptyKeepsTruthy(d: Dict, k: string, v: Value)
    ensures (k, v) in StripEmpty(d) <==> (k, v) in d && Truthy(v)
  {
    if |d| > 0 {
      StripEmptyKeepsTruthy(d[1..], k, v);
      assert d == [d[0]] + d[1..];
    }
  }

  /** Every key of the result is a key of the input. */
  lemma StripEmptyKeysSubset(d: Dict, k: string)
    ensures HasKey(StripEmpty(d), k) ==> HasKey(d, k)
  {
    var r := StripEmpty(d);
    if HasKey(r, k) {
      var i :| 0 <= i < |r| && r[i].0 == k;
      StripEmptyKeepsTruthy(d, r[i].0, r[i].1);
      var j :| 0 <= j < |d| && d[j] == r[i];
    }
  }

  /** Applying `strip_empty` twice is the same as applying it once. */
  lemma {:induction false} StripEmptyIdempotent(d: Dict)
    ensures StripEmpty(StripEmpty(d)) == StripEmpty(d)
  {
    if |d| > 0 {
      StripEmptyIdempotent(d[1..]);
      var rest := StripEmpty(d[1..]);
      if Truthy(d[0].1) {
        var once := [d[0]] + rest;
        assert once[0] == d[0] && once[1..] == rest;
        assert StripEmpty(once) == [d[0]] + StripEmpty(rest);
      } else {
        assert StripEmpty(d) == rest;
      }
    }
  }

  /**
   * Looked up by key, the result of `strip_empty` holds the original value when
   * it is truthy and nothing otherwise (Python dicts have distinct keys).
   */
  lemma {:induction false} StripEmptyGet(d: Dict, k: string)
    requires forall i, j :: 0 <= i < j < |d| ==> d[i].0 != d[j].0
    ensures Get(StripEmpty(d), k) == if Truthy(Get(d, k)) then Get(d, k) else VNone
  {
    if |d| > 0 {
      StripEmptyGet(d[1..], k);
      var rest := StripEmpty(d[1..]);
      if d[0].0 == k {
        if !Truthy(d[0].1) {
          StripEmptyKeysSubset(d[1..], k);
          assert !HasKey(d[1..], k);
          GetFinds(rest, k);
          assert StripEmpty(d) == rest;
        }
      } else if Truthy(d[0].1) {
        var once := [d[0]] + rest;
        assert once[0] == d[0] && once[1..] == rest;
        assert Get(once, k) == Get(rest, k);
      } else {
        assert StripEmpty(d) == rest;
      }
    }
  }

  /** The `k: v` line of one fragment entry. */
  function EntryLine(entry: (string, Value)): string
  {
    entry.0 + ": " + Show(entry.1)
  }

  /** One `k: v` line per entry of a fragment, in its order. */
  function EntryLines(entries: Dict): seq<string>
  {
    if |entries| == 0 then [] else [EntryLine(entries[0])] + EntryLines(entries[1..])
  }

  lemma {:induction false} EntryLinesSnoc(entries: Dict, e: (string, Value))
    ensures EntryLines(entries + [e]) == EntryLines(entries) + [EntryLine(e)]
  {
    if |entries| == 0 {
      assert entries + [e] == [e];
    } else {
      EntryLinesSnoc(entries[1..], e);
      assert (entries + [e])[1..] == entries[1..] + [e];
    }
  }

  lemma {:induction false} EntryLinesNonEmpty(entries: Dict)
    ensures forall i :: 0 <= i < |EntryLines(entries)| ==> EntryLines(entries)[i] != ""
  {
    if |entries| > 0 {
      EntryLinesNonEmpty(entries[1..]);
    }
  }

  /** The lines one item of the combined dict contributes. */
  function ItemLines(source: string, data: Value): seq<string>
  {
    if source == "sources" then []
    else if data.VDict? then ["[" + source + "]"] + EntryLines(data.entries)
    else []
  }

  /** All lines `flatten_for_prompt` collects before joining them. */
  function FlattenLines(d: Dict): seq<string>
  {
    if |d| == 0 then [] else ItemLines(d[0].0, d[0].1) + FlattenLines(d[1..])
  }

  /** An item is rendered when it is a dict and not the "sources" list. */
  predicate Rendered(item: (string, Value))
  {
    item.0 != "sources" && item.1.VDict?
  }

  function Rendering(d: Dict): Dict
  {
    if |d| == 0 then []
    else (if Rendered(d[0]) then [d[0]] else []) + Rendering(d[1..])
  }

  /** The "sources" item and every non-dict value contribute nothing. */
  lemma {:induction false} FlattenOnlyRendered(d: Dict)
    ensures FlattenLines(d) == FlattenLines(Rendering(d))
  {
    if |d| > 0 {
      FlattenOnlyRendered(d[1..]);
      var rest := Rendering(d[1..]);
      if Rendered(d[0]) {
        var r := [d[0]] + rest;
        assert r[0] == d[0] && r[1..] == rest;
        assert FlattenLines(r) == ItemLines(d[0].0, d[0].1) + FlattenLines(rest);
      } else {
        assert ItemLines(d[0].0, d[0].1) == [];
        assert Rendering(d) == rest;
      }
    }
  }

  /** Every collected line is non-empty: headers and `k: v` lines both have text. */
  lemma {:induction false} FlattenLinesNonEmpty(d: Dict)
    ensures forall i :: 0 <= i < |FlattenLines(d)| ==> FlattenLines(d)[i] != ""
  {
    if |d| > 0 {
      FlattenLinesNonEmpty(d[1..]);
      if d[0].1.VDict? {
        EntryLinesNonEmpty(d[0].1.entries);
      }
    }
  }

  /** The rendering is empty exactly when no item is a dict other than "sources". */
  lemma {:induction false} FlattenEmptyIff(d: Dict)
    ensures Join(FlattenLines(d), "\n") == "" <==> Rendering(d) == []
  {
    FlattenOnlyRendered(d);
    FlattenLinesNonEmpty(d);
    JoinEmptyIff(FlattenLines(d), "\n");
    var r := Rendering(d);
    if r != [] {
      assert FlattenLines(r) == ItemLines(r[0].0, r[0].1) + FlattenLines(r[1..]);
      RenderingRendered(d);
      assert FlattenLines(r)[0] == "[" + r[0].0 + "]";
    }
  }

  lemma {:induction false} RenderingRendered(d: Dict)
    ensures forall i :: 0 <= i < |Rendering(d)| ==> Rendered(Rendering(d)[i])
  {
    if |d| > 0 {
      RenderingRendered(d[1..]);
    }
  }

  /** Appending one item appends that item's lines. */
  lemma {:induction false} FlattenSnoc(d: Dict, item: (string, Value))
    ensures FlattenLines(d + [item]) == FlattenLines(d) + ItemLines(item.0, item.1)
  {
    if |d| == 0 {
      assert d + [item] == [item];
      assert FlattenLines([item]) == ItemLines(item.0, item.1) + FlattenLines([]);
    } else {
      var head := ItemLines(d[0].0, d[0].1);
      var rest, last := FlattenLines(d[1..]), ItemLines(item.0, item.1);
      assert FlattenLines(d + [item]) == head + FlattenLines(d[1..] + [item]) by {
        assert (d + [item])[0] == d[0] && (d + [item])[1..] == d[1..] + [item];
      }
      assert FlattenLines(d[1..] + [item]) == rest + last by {
        FlattenSnoc(d[1..], item);
      }
      assert head + (rest + last) == (head + rest) + last;
    }
  }

  /** `flatten_for_prompt`: a header per dict item, then one line per entry, joined by newlines. */
  method FlattenForPrompt(combined: Dict) returns (text: string)
    ensures text == Join(FlattenLines(combined), "\n")
  {
    var lines: seq<string> := [];
    var i := 0;
    while i < |combined|
      invariant 0 <= i <= |combined|
      invariant lines == FlattenLines(combined[..i])
    {
      var item := CollectItem(combined[i].0, combined[i].1);
      lines := lines + item;
      FlattenSnoc(combined[..i], combined[i]);
      assert combined[..i + 1] == combined[..i] + [combined[i]];
      i := i + 1;
    }
    assert combined[..i] == combined;
    text := Join(lines, "\n");
  }

  /** The body of `flatten_for_prompt`'s loop for one item of the combined dict. */
  method CollectItem(source: string, data: Value) returns (lines: seq<string>)
    ensures lines == ItemLines(source, data)
  {
    lines := [];
    if source != "sources" && data.VDict? {
      lines := ["[" + source + "]"];
      var j := 0;
      while j < |data.entries|
        invariant 0 <= j <= |data.entries|
        invariant lines == ["[" + source + "]"] + EntryLines(data.entries[..j])
      {
        var k := data.entries[j].0;
        var v := data.entries[j].1;
        lines := lines + [k + ": " + Show(v)];
        EntryLinesSnoc(data.entries[..j], data.entries[j]);
        assert data.entries[..j + 1] == data.entries[..j] + [data.entries[j]];
        j := j + 1;
      }
      assert data.entries[..j] == data.entries;
    }
  }
}
