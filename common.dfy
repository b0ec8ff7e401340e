/** Values shared by every part of the model: optional values (the source's
    null), the .NET exceptions the source raises or catches, and the few
    string and dictionary operations the source relies on. */
module Common {

  /** A reference or string that may be null. */
  datatype Option<+T> = None | Some(value: T)

  /** A .NET exception as the WPS job engine sees it: a plain exception with
      its message and stack trace, or an AggregateException wrapping others. */
  datatype Exn =
    | Simple(message: string, stackTrace: string)
    | Aggregate(message: string, stackTrace: string, inner: seq<Exn>)

  /** The OGC exceptions (OWS Common 1.1 exception codes) the operations raise. */
  datatype OgcError =
    | MissingParameterValue(locator: string)
    | InvalidParameterValue(locator: string, value: string)
    | OperationNotSupported(locator: string, message: string)
    | NoApplicableCode(message: string)
    | VersionNegotiation(message: string)

  /** Every exception the modelled code can raise. */
  datatype Fault =
    | Ogc(error: OgcError)
    | NullReference
    | ConfigurationErrors
    | NotImplemented
    | InvalidOperation
    | EntryPointNotFound
    | DuplicateKey            // ArgumentException from Dictionary.Add / ToDictionary
    | KeyNotFound             // KeyNotFoundException from a dictionary indexer
    | ArgumentNull            // ArgumentNullException from Dictionary.ContainsKey(null)
    | XmlError                // a document that does not parse or deserialise
    | UriFormat               // a malformed URI given to new Uri(..)
    | Transport               // the HTTP request itself failed
    | HttpStatus(code: int)   // a reply whose status code is not 200 OK
    | Thrown(exn: Exn)        // an exception raised by a process implementation

  /** Either a value or the exception that was thrown instead. */
  datatype Result<+T> = Ok(value: T) | Err(error: Fault)

  /** string.IsNullOrEmpty */
  predicate IsNullOrEmpty(s: Option<string>) {
    s.None? || s.value == ""
  }

  /** The text string.Format writes for a possibly null argument. */
  function FormatArg(s: Option<string>): string {
    if s.Some? then s.value else ""
  }

  predicate IsPrefix(p: string, s: string) {
    |p| <= |s| && s[..|p|] == p
  }

  /** string.Contains (ordinal) */
  predicate Contains(s: string, sub: string)
    decreases |s|
  {
    IsPrefix(sub, s) || (|s| > 0 && Contains(s[1..], sub))
  }

  function LowerAscii(c: char): char {
    if 'A' <= c <= 'Z' then (c as int + 32) as char else c
  }

  function Lower(s: string): (r: string)
    ensures |r| == |s|
    ensures forall i :: 0 <= i < |s| ==> r[i] == LowerAscii(s[i])
  {
    if s == [] then [] else [LowerAscii(s[0])] + Lower(s[1..])
  }

  /** Ordinal comparison ignoring the case of ASCII letters
      (StringComparison.OrdinalIgnoreCase restricted to ASCII). */
  predicate EqualsIgnoreCase(a: string, b: string) {
    Lower(a) == Lower(b)
  }

  /** string.StartsWith(p, StringComparison.OrdinalIgnoreCase) */
  predicate StartsWithIgnoreCase(s: string, p: string) {
    |p| <= |s| && EqualsIgnoreCase(s[..|p|], p)
  }

  /** char.IsWhiteSpace: the Unicode separators (categories Zs, Zl, Zp) and
      the control characters U+0009 to U+000D and U+0085. */
  predicate IsWhiteSpace(c: char) {
    ('\U{0009}' <= c <= '\U{000D}') || c == ' ' || c == '\U{0085}' || c == '\U{00A0}' || c == '\U{1680}' ||
    ('\U{2000}' <= c <= '\U{200A}') || c == '\U{2028}' || c == '\U{2029}' || c == '\U{202F}' ||
    c == '\U{205F}' || c == '\U{3000}'
  }

  /** string.TrimStart(): the leading white space removed. */
  function TrimStart(s: string): (r: string)
    ensures |r| <= |s| && r == s[|s| - |r|..]
    ensures forall i :: 0 <= i < |s| - |r| ==> IsWhiteSpace(s[i])
    ensures r == [] || !IsWhiteSpace(r[0])
  {
    if s != [] && IsWhiteSpace(s[0]) then TrimStart(s[1..]) else s
  }

  /** string.TrimEnd(): the trailing white space removed. */
  function TrimEnd(s: string): (r: string)
    ensures |r| <= |s| && r == s[..|r|]
    ensures forall i :: |r| <= i < |s| ==> IsWhiteSpace(s[i])
    ensures r == [] || !IsWhiteSpace(r[|r| - 1])
  {
    if s != [] && IsWhiteSpace(s[|s| - 1]) then TrimEnd(s[..|s| - 1]) else s
  }

  /** string.Trim() */
  function Trim(s: string): string {
    TrimEnd(TrimStart(s))
  }

  /** string.Split(',') */
  function Split(s: string, sep: char): (parts: seq<string>)
    ensures |parts| >= 1
    ensures sep !in s ==> parts == [s]
    decreases |s|
  {
    if s == [] then [""]
    else
      var rest := Split(s[1..], sep);
      assert sep !in s ==> sep !in s[1..] && [s[0]] + s[1..] == s;
      if s[0] == sep then [""] + rest
      else [[s[0]] + rest[0]] + rest[1..]
  }

  /** string.Join(sep, parts) */
  function Join(parts: seq<string>, sep: char): string {
    if parts == [] then []
    else if |parts| == 1 then parts[0]
    else parts[0] + [sep] + Join(parts[1..], sep)
  }

  /** Splitting loses nothing: the parts joined back with the separator
      give the string. */
  lemma {:induction false} SplitJoin(s: string, sep: char)
    ensures Join(Split(s, sep), sep) == s
    decreases |s|
  {
    if s != [] {
      var rest := Split(s[1..], sep);
      SplitJoin(s[1..], sep);
      if s[0] == sep {
        assert Split(s, sep) == [""] + rest;
        assert ([""] + rest)[1..] == rest;
        assert Join(Split(s, sep), sep) == [sep] + s[1..];
      } else {
        var head := [s[0]] + rest[0];
        assert Split(s, sep) == [head] + rest[1..];
        if |rest| > 1 {
          assert Join(rest, sep) == rest[0] + [sep] + Join(rest[1..], sep);
          assert ([head] + rest[1..])[1..] == rest[1..];
        }
      }
      assert s == [s[0]] + s[1..];
    }
  }

  /** No part of a split holds the separator. */
  lemma {:induction false} SplitParts(s: string, sep: char)
    ensures forall i :: 0 <= i < |Split(s, sep)| ==> sep !in Split(s, sep)[i]
    decreases |s|
  {
    if s != [] {
      var rest := Split(s[1..], sep);
      SplitParts(s[1..], sep);
      if s[0] != sep {
        assert sep !in [s[0]] + rest[0];
      }
    }
  }

  /** The value of the first pair whose key is k in an association list:
      what a dictionary indexer returns for a dictionary filled in that order. */
  function Find<K(==), V(==)>(l: seq<(K, V)>, k: K): (r: Option<V>)
    ensures r.Some? <==> exists i :: 0 <= i < |l| && l[i].0 == k
    ensures r.Some? ==> (k, r.value) in l
    ensures r.Some? <==> KeyIndex(l, k) < |l|
    ensures r.Some? ==> r.value == l[KeyIndex(l, k)].1
  {
    if l == [] then None
    else if l[0].0 == k then Some(l[0].1)
    else
      var r := Find(l[1..], k);
      assert forall i :: 1 <= i < |l| ==> l[i] == l[1..][i - 1];
      r
  }

  /** The position of the first pair whose key is k, or |l| when there is none. */
  function KeyIndex<K(==), V>(l: seq<(K, V)>, k: K): (r: nat)
    ensures r <= |l|
    ensures r < |l| ==> l[r].0 == k
    ensures forall j :: 0 <= j < r ==> l[j].0 != k
  {
    if l == [] then 0
    else if l[0].0 == k then 0
    else
      var r := KeyIndex(l[1..], k);
      assert forall j :: 1 <= j < |l| ==> l[j] == l[1..][j - 1];
      1 + r
  }

  /** The keys of an association list, in order. */
  function Keys<K, V>(l: seq<(K, V)>): (ks: seq<K>)
    ensures |ks| == |l|
    ensures forall i :: 0 <= i < |l| ==> ks[i] == l[i].0
  {
    if l == [] then [] else [l[0].0] + Keys(l[1..])
  }

  /** No element occurs twice. */
  predicate NoDuplicates<T(==)>(s: seq<T>) {
    forall i, j :: 0 <= i < j < |s| ==> s[i] != s[j]
  }

  /** The position where x first occurs in s, or |s| when it does not. */
  function IndexOf<T(==)>(s: seq<T>, x: T): (r: nat)
    ensures r <= |s|
    ensures r < |s| <==> x in s
    ensures r < |s| ==> s[r] == x
    ensures forall j :: 0 <= j < r ==> s[j] != x
  {
    if s == [] then 0
    else
      var n := |s| - 1;
      var f := IndexOf(s[..n], x);
      assert forall j :: 0 <= j < n ==> s[..n][j] == s[j];
      assert s == s[..n] + [s[n]];
      if f < n then f else if s[n] == x then n else n + 1
  }

  /** The positions of the elements of s that satisfy p, in increasing
      order: what a Where clause keeps of s, and in which order. */
  function Positions<T>(s: seq<T>, p: T -> bool): (idx: seq<nat>)
    ensures forall k :: 0 <= k < |idx| ==> idx[k] < |s| && p(s[idx[k]])
    ensures forall k, l :: 0 <= k < l < |idx| ==> idx[k] < idx[l]
    ensures forall i :: 0 <= i < |s| ==> (i in idx <==> p(s[i]))
  {
    if s == [] then []
    else
      var n := |s| - 1;
      var init := Positions(s[..n], p);
      assert forall k :: 0 <= k < |init| ==> s[..n][init[k]] == s[init[k]];
      assert forall i :: 0 <= i < n ==> s[..n][i] == s[i];
      if p(s[n]) then init + [n] else init
  }

  /** Enumerable.Distinct and Enumerable.Union: each element once, in the
      order of its first occurrence. */
  function Distinct<T(==,!new)>(s: seq<T>): (d: seq<T>)
    ensures forall x :: x in d <==> x in s
    ensures NoDuplicates(d)
    ensures forall i, j :: 0 <= i < j < |d| ==> IndexOf(s, d[i]) < IndexOf(s, d[j])
  {
    if s == [] then []
    else
      var n := |s| - 1;
      var init := s[..n];
      assert s == init + [s[n]];
      var d := Distinct(init);
      assert forall x :: x in init ==> IndexOf(s, x) == IndexOf(init, x);
      if s[n] in init then d else d + [s[n]]
  }

  /** Dropping the last element of a + b, b non-empty, drops it from b. */
  lemma DropLastOfAppend<T>(a: seq<T>, b: seq<T>)
    requires b != []
    ensures (a + b)[..|a + b| - 1] == a + b[..|b| - 1] && (a + b)[|a + b| - 1] == b[|b| - 1]
  {
  }

  /** Concatenation is associative. */
  lemma ConcatAssoc<T>(x: seq<T>, y: seq<T>, z: seq<T>)
    ensures (x + y) + z == x + (y + z)
  {
  }

  /** Appending a pair appends its key. */
  lemma KeysAppend<K, V>(l: seq<(K, V)>, x: (K, V))
    ensures Keys(l + [x]) == Keys(l) + [x.0]
  {
    assert forall i :: 0 <= i < |l| ==> (l + [x])[i] == l[i];
  }

  /** No key occurs twice: the association list is a valid dictionary. */
  predicate UniqueKeys<K(==), V>(l: seq<(K, V)>) {
    forall i, j :: 0 <= i < j < |l| ==> l[i].0 != l[j].0
  }

  /** In a dictionary without repeated keys, every stored pair is what the
      indexer finds for its key. */
  lemma {:induction false} FindStored<K, V>(l: seq<(K, V)>, i: nat)
    requires UniqueKeys(l) && i < |l|
    ensures Find(l, l[i].0) == Some(l[i].1)
  {
    if i > 0 {
      assert l[0].0 != l[i].0;
      assert l[1..][i - 1] == l[i];
      FindStored(l[1..], i - 1);
    }
  }
}
