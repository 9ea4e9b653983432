/** The cache key deriver, `TTSEngine._get_cache_key`: the digest of the string
    `text|rate|model_name`. */
module CacheKey {
  import opened Common

  /** The string whose digest names a clip: the three fields joined by '|'. */
  function KeyContent(ext: Externals, text: string, rate: real, modelName: string): (c: string)
    ensures |c| == |text| + |ext.formatRate(rate)| + |modelName| + 2
    ensures c[..|text|] == text && c[|text|] == '|'
    ensures c[|text| + 1..|c| - |modelName| - 1] == ext.formatRate(rate)
    ensures c[|c| - |modelName| - 1] == '|' && c[|c| - |modelName|..] == modelName
  {
    text + "|" + ext.formatRate(rate) + "|" + modelName
  }

  /** The cache key of a request: the MD5 digest of its key content. */
  function DeriveKey(ext: Externals, text: string, rate: real, modelName: string): Key
  {
    ext.md5Hex(KeyContent(ext, text, rate, modelName))
  }

  /** Index of the first '|' in `s`, or `|s|` when there is none. */
  function SeparatorIndex(s: string): (i: nat)
    ensures i <= |s|
  {
    if s == [] || s[0] == '|' then 0 else 1 + SeparatorIndex(s[1..])
  }

  /** The first separator after a field free of '|' sits right behind that field. */
  lemma {:induction false} SeparatorAfterField(field: string, rest: string)
    requires '|' !in field
    ensures SeparatorIndex(field + "|" + rest) == |field|
  {
    if field != [] {
      assert (field + "|" + rest)[1..] == field[1..] + "|" + rest;
      assert field[0] in field;
      SeparatorAfterField(field[1..], rest);
    } else {
      assert field + "|" + rest == "|" + rest;
    }
  }

  /** Joining two '|'-free fields to their tails with '|' is injective. */
  lemma SplitAtSeparator(a: string, x: string, b: string, y: string)
    requires '|' !in a && '|' !in b
    requires a + "|" + x == b + "|" + y
    ensures a == b && x == y
  {
    SeparatorAfterField(a, x);
    SeparatorAfterField(b, y);
    var joined := a + "|" + x;
    assert a == joined[..|a|];
    assert x == joined[|a| + 1..];
    assert b == joined[..|b|];
    assert y == joined[|b| + 1..];
  }

  /** The key content determines all three fields, even across different model
      names, as long as neither the text nor the printed rate contains '|' (the model
      name may). For one model name see `SameModelContentDeterminesRequest`. */
  lemma KeyContentDeterminesFields(ext: Externals, t1: string, r1: real, m1: string,
                                   t2: string, r2: real, m2: string)
    requires '|' !in t1 && '|' !in t2
    requires '|' !in ext.formatRate(r1) && '|' !in ext.formatRate(r2)
    requires KeyContent(ext, t1, r1, m1) == KeyContent(ext, t2, r2, m2)
    ensures t1 == t2 && ext.formatRate(r1) == ext.formatRate(r2) && m1 == m2
  {
    var f1, f2 := ext.formatRate(r1), ext.formatRate(r2);
    assert KeyContent(ext, t1, r1, m1) == t1 + "|" + (f1 + "|" + m1);
    assert KeyContent(ext, t2, r2, m2) == t2 + "|" + (f2 + "|" + m2);
    SplitAtSeparator(t1, f1 + "|" + m1, t2, f2 + "|" + m2);
    SplitAtSeparator(f1, m1, f2, m2);
  }

  /** Length of the run of characters other than '|' at the end of `s`. */
  function TrailingFieldLength(s: string): (n: nat)
    ensures n <= |s|
  {
    if s == [] || s[|s| - 1] == '|' then 0 else 1 + TrailingFieldLength(s[..|s| - 1])
  }

  /** The last separator before a '|'-free field sits right in front of that field. */
  lemma {:induction false} TrailingFieldAfterSeparator(head: string, field: string)
    requires '|' !in field
    ensures TrailingFieldLength(head + "|" + field) == |field|
  {
    if field != [] {
      var last := |field| - 1;
      var joined := head + "|" + field;
      assert field[last] in field;
      assert joined[..|joined| - 1] == head + "|" + field[..last];
      assert forall c | c in field[..last] :: c in field;
      TrailingFieldAfterSeparator(head, field[..last]);
    } else {
      assert head + "|" + field == head + "|";
    }
  }

  /** Joining heads to two '|'-free tails with '|' is injective, whatever the heads hold. */
  lemma SplitAtLastSeparator(a: string, x: string, b: string, y: string)
    requires '|' !in x && '|' !in y
    requires a + "|" + x == b + "|" + y
    ensures a == b && x == y
  {
    TrailingFieldAfterSeparator(a, x);
    TrailingFieldAfterSeparator(b, y);
    var joined := a + "|" + x;
    assert a == joined[..|a|];
    assert x == joined[|a| + 1..];
    assert b == joined[..|b|];
    assert y == joined[|b| + 1..];
  }

  /** Every request of one process uses the configured model name. Under one model
      name the key content determines the text, even a text containing '|', and the
      printed rate, as long as the printed rate contains no '|'. */
  lemma SameModelContentDeterminesRequest(ext: Externals, t1: string, r1: real,
                                          t2: string, r2: real, modelName: string)
    requires '|' !in ext.formatRate(r1) && '|' !in ext.formatRate(r2)
    requires KeyContent(ext, t1, r1, modelName) == KeyContent(ext, t2, r2, modelName)
    ensures t1 == t2 && ext.formatRate(r1) == ext.formatRate(r2)
  {
    var f1, f2 := ext.formatRate(r1), ext.formatRate(r2);
    var tail := "|" + modelName;
    var c1, c2 := KeyContent(ext, t1, r1, modelName), KeyContent(ext, t2, r2, modelName);
    assert c1 == (t1 + "|" + f1) + tail;
    assert c2 == (t2 + "|" + f2) + tail;
    assert t1 + "|" + f1 == c1[..|c1| - |tail|];
    assert t2 + "|" + f2 == c2[..|c2| - |tail|];
    SplitAtLastSeparator(t1, f1, t2, f2);
  }

  /** With the rate and the model name fixed, the content determines the text: any
      change of the text alone changes the content. */
  lemma ContentDeterminesText(ext: Externals, t1: string, t2: string, rate: real, modelName: string)
    requires KeyContent(ext, t1, rate, modelName) == KeyContent(ext, t2, rate, modelName)
    ensures t1 == t2
  {
    var tail := "|" + ext.formatRate(rate) + "|" + modelName;
    var c1, c2 := KeyContent(ext, t1, rate, modelName), KeyContent(ext, t2, rate, modelName);
    assert c1 == t1 + tail && c2 == t2 + tail;
    assert t1 == c1[..|c1| - |tail|];
    assert t2 == c2[..|c2| - |tail|];
  }

  /** With the text and the model name fixed, the content determines the printed rate. */
  lemma ContentDeterminesRate(ext: Externals, text: string, r1: real, r2: real, modelName: string)
    requires KeyContent(ext, text, r1, modelName) == KeyContent(ext, text, r2, modelName)
    ensures ext.formatRate(r1) == ext.formatRate(r2)
  {
    var f1, f2 := ext.formatRate(r1), ext.formatRate(r2);
    var c1, c2 := KeyContent(ext, text, r1, modelName), KeyContent(ext, text, r2, modelName);
    var head, tail := text + "|", "|" + modelName;
    assert c1 == head + f1 + tail && c2 == head + f2 + tail;
    assert f1 == c1[|head|..|c1| - |tail|];
    assert f2 == c2[|head|..|c2| - |tail|];
  }

  /** With the text and the rate fixed, the content determines the model name. */
  lemma ContentDeterminesModel(ext: Externals, text: string, rate: real, m1: string, m2: string)
    requires KeyContent(ext, text, rate, m1) == KeyContent(ext, text, rate, m2)
    ensures m1 == m2
  {
    var head := text + "|" + ext.formatRate(rate) + "|";
    var c1, c2 := KeyContent(ext, text, rate, m1), KeyContent(ext, text, rate, m2);
    assert c1 == head + m1 && c2 == head + m2;
    assert m1 == c1[|head|..];
    assert m2 == c2[|head|..];
  }

  /** A text containing '|' can give the same content as a request made under a
      different model name, e.g. after a restart with another configuration, since
      the cache files persist. Within one model name, and with a printed rate free of
      '|', it cannot (`SameModelContentDeterminesRequest`). */
  lemma PipeInTextCollides(ext: Externals, text: string, rate: real, modelName: string)
    ensures var printed := ext.formatRate(rate);
            KeyContent(ext, text + "|" + printed, rate, modelName)
              == KeyContent(ext, text, rate, printed + "|" + modelName)
  {
    var p := ext.formatRate(rate);
    assert text + "|" + p + "|" + p + "|" + modelName
        == (text + "|" + p + "|" + p) + "|" + modelName;
  }
}
