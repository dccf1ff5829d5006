/** The resource-ID codec shared by every ID type of the provider.

    A resource ID is a slash-delimited path such as
    `/subscriptions/{id}/resourceGroups/{group}/providers/...`. Each ID type is
    described by a Shape: the ordered list of its path components, each either
    a fixed literal token or a named value. One formatter and one parser,
    driven by the shape, stand for the per-type generated code. */
module ResourceIds {
  import opened Wrappers

  /** One path component of a shape. */
  datatype Segment = Literal(token: string) | Value(fieldName: string)

  /** The declared components of an ID type, in order. */
  datatype Shape = End | Then(head: Segment, tail: Shape)

  /** Why a string is not an ID of the shape. The parsers return a plain Go
      error; the kinds here only record which check failed. */
  datatype ParseError =
    | EmptyInput
    | MissingLeadingSlash
    | MissingSegment(expected: string)
    | UnexpectedSegment(expected: string, found: string)
    | EmptyValue(fieldName: string)
    | TrailingContent(extra: seq<string>)

  function Length(shape: Shape): nat {
    match shape
    case End => 0
    case Then(_, tail) => 1 + Length(tail)
  }

  /** The number of named values of a shape: the arity of its ID record. */
  function ValueCount(shape: Shape): nat {
    match shape
    case End => 0
    case Then(seg, tail) => (if seg.Value? then 1 else 0) + ValueCount(tail)
  }

  /** Every literal token is non-empty and holds no separator. */
  predicate LiteralsWellFormed(shape: Shape) {
    match shape
    case End => true
    case Then(seg, tail) =>
      (seg.Literal? ==> seg.token != "" && '/' !in seg.token) && LiteralsWellFormed(tail)
  }

  /** What every declared ID type satisfies. */
  predicate ValidShape(shape: Shape) {
    shape != End && LiteralsWellFormed(shape)
  }

  predicate SeparatorFree(p: seq<string>) {
    forall i :: 0 <= i < |p| ==> '/' !in p[i]
  }

  /** A value the parser can give back: non-empty and free of separators. */
  predicate ValidValue(v: string) {
    v != "" && '/' !in v
  }

  predicate ValidValues(vs: seq<string>) {
    forall i :: 0 <= i < |vs| ==> ValidValue(vs[i])
  }

  /** The values left for the tail once the head segment has taken its own. */
  function TailValues(seg: Segment, vs: seq<string>): seq<string>
    requires seg.Value? ==> |vs| > 0
  {
    if seg.Literal? then vs else vs[1..]
  }

  /** The text the head segment contributes: its token, or its value. */
  function HeadPiece(seg: Segment, vs: seq<string>): string
    requires seg.Value? ==> |vs| > 0
  {
    if seg.Literal? then seg.token else vs[0]
  }

  // ---------------------------------------------------------------------------
  // Splitting on and joining with '/'
  // ---------------------------------------------------------------------------

  /** The pieces of `s` between separators, as Go's strings.Split(s, "/"):
      always at least one piece, none containing a separator. */
  function Split(s: string): (r: seq<string>)
    ensures |r| >= 1
    ensures SeparatorFree(r)
  {
    if s == [] then [""]
    else if s[0] == '/' then [""] + Split(s[1..])
    else
      var rest := Split(s[1..]);
      [[s[0]] + rest[0]] + rest[1..]
  }

  /** The pieces glued back together with '/', as Go's strings.Join(p, "/"). */
  function Join(p: seq<string>): string {
    if |p| == 0 then ""
    else if |p| == 1 then p[0]
    else p[0] + "/" + Join(p[1..])
  }

  lemma AppendAssoc(x: string, y: string, z: string)
    ensures x + (y + z) == (x + y) + z
  {
  }

  lemma SplitSlash(x: string)
    ensures Split("/" + x) == [""] + Split(x)
  {
    assert ("/" + x)[1..] == x;
  }

  /** A string without separators is a single piece. */
  lemma {:induction false} SplitNoSeparator(a: string)
    requires '/' !in a
    ensures Split(a) == [a]
  {
    if a != [] {
      assert a[0] != '/' && '/' !in a[1..];
      SplitNoSeparator(a[1..]);
      assert [a[0]] + a[1..] == a;
    }
  }

  /** A separator-free head followed by a separator splits off as one piece. */
  lemma {:induction false} SplitCons(a: string, rest: string)
    requires '/' !in a
    ensures Split(a + "/" + rest) == [a] + Split(rest)
  {
    if a == [] {
      assert a + "/" + rest == "/" + rest;
      SplitSlash(rest);
    } else {
      var s := a + "/" + rest;
      assert s[0] == a[0] && s[1..] == a[1..] + "/" + rest;
      assert '/' !in a[1..];
      SplitCons(a[1..], rest);
      assert [a[0]] + a[1..] == a;
    }
  }

  /** Splitting undoes joining, when no piece contains a separator. */
  lemma {:induction false} SplitJoin(p: seq<string>)
    requires |p| >= 1
    requires SeparatorFree(p)
    ensures Split(Join(p)) == p
  {
    if |p| == 1 {
      SplitNoSeparator(p[0]);
    } else {
      assert SeparatorFree(p[1..]) by {
        forall i | 0 <= i < |p[1..]| ensures '/' !in p[1..][i] {
          assert p[1..][i] == p[i + 1];
        }
      }
      SplitCons(p[0], Join(p[1..]));
      SplitJoin(p[1..]);
      assert [p[0]] + p[1..] == p;
    }
  }

  /** Joining the first piece after a prefix prefixes the joined string. */
  lemma {:induction false} JoinPrefixHead(x: string, r: seq<string>)
    requires |r| >= 1
    ensures Join([x + r[0]] + r[1..]) == x + Join(r)
  {
    var q := [x + r[0]] + r[1..];
    if |r| > 1 {
      assert q[0] == x + r[0] && q[1..] == r[1..];
    }
  }

  /** Joining undoes splitting. */
  lemma {:induction false} JoinSplit(s: string)
    ensures Join(Split(s)) == s
  {
    if s == [] {
    } else if s[0] == '/' {
      JoinSplit(s[1..]);
      var r := Split(s[1..]);
      assert ([""] + r)[1..] == r;
      assert s == "/" + s[1..];
    } else {
      JoinSplit(s[1..]);
      JoinPrefixHead([s[0]], Split(s[1..]));
      assert s == [s[0]] + s[1..];
    }
  }

  lemma JoinCons(a: string, rest: seq<string>)
    requires |rest| >= 1
    ensures Join([a] + rest) == a + "/" + Join(rest)
  {
    assert ([a] + rest)[1..] == rest;
  }

  // ---------------------------------------------------------------------------
  // Format
  // ---------------------------------------------------------------------------

  /** The path components of the ID: literal tokens as declared, values in
      declaration order. */
  function Pieces(shape: Shape, vs: seq<string>): (r: seq<string>)
    requires |vs| == ValueCount(shape)
    ensures |r| == Length(shape)
  {
    match shape
    case End => []
    case Then(seg, tail) => [HeadPiece(seg, vs)] + Pieces(tail, TailValues(seg, vs))
  }

  /** The canonical string, the `.ID()` of every ID type: each component in
      declaration order, each preceded by '/', with no trailing '/'. */
  function Format(shape: Shape, vs: seq<string>): (r: string)
    requires |vs| == ValueCount(shape)
    ensures r == "" <==> shape == End
    ensures r != "" ==> r[0] == '/'
  {
    match shape
    case End => ""
    case Then(seg, tail) => "/" + HeadPiece(seg, vs) + Format(tail, TailValues(seg, vs))
  }

  /** One step of formatting: a value head contributes '/' and the first value. */
  lemma FormatValue(name: string, tail: Shape, vs: seq<string>)
    requires |vs| == 1 + ValueCount(tail)
    ensures Format(Then(Value(name), tail), vs) == "/" + vs[0] + Format(tail, vs[1..])
  {
  }

  /** One step of formatting: a literal head prepends '/' and its token to
      the text the tail begins with, given that text as `lit`. */
  lemma FormatLiteral(token: string, tail: Shape, vs: seq<string>, lit: string, merged: string, v: string, rest: string)
    requires |vs| == ValueCount(tail)
    requires Format(tail, vs) == lit + v + rest
    requires merged == "/" + token + lit
    ensures Format(Then(Literal(token), tail), vs) == merged + v + rest
  {
  }

  /** The text "/" + token + "/" + found + "/" + rest, whose first component
      differs from the token the shape begins with, is rejected. */
  lemma LeadingLiteralMismatch(shape: Shape, found: string, rest: string, s: string)
    requires shape.Then? && shape.head.Literal? && found != shape.head.token
    requires '/' !in found
    requires s == "/" + found + "/" + rest
    ensures Parse(shape, s).Failure?
  {
    assert s == "/" + (found + "/" + rest);
    SplitSlash(found + "/" + rest);
    SplitCons(found, rest);
    assert Split(s)[1..] == [found] + Split(rest);
  }

  /** Formatting is '/' followed by the components joined with '/'. */
  lemma {:induction false} FormatJoin(shape: Shape, vs: seq<string>)
    requires |vs| == ValueCount(shape)
    requires shape != End
    ensures Format(shape, vs) == "/" + Join(Pieces(shape, vs))
  {
    var p := HeadPiece(shape.head, vs);
    var tvs := TailValues(shape.head, vs);
    if shape.tail == End {
      assert Pieces(shape, vs) == [p];
      assert Format(shape, vs) == "/" + p + "";
    } else {
      FormatJoin(shape.tail, tvs);
      JoinCons(p, Pieces(shape.tail, tvs));
    }
  }

  lemma ValuesTail(seg: Segment, vs: seq<string>)
    requires seg.Value? ==> |vs| > 0
    requires SeparatorFree(vs)
    ensures SeparatorFree(TailValues(seg, vs))
    ensures seg.Value? ==> '/' !in HeadPiece(seg, vs)
  {
    var tvs := TailValues(seg, vs);
    forall i | 0 <= i < |tvs| ensures '/' !in tvs[i] {
      if seg.Value? { assert tvs[i] == vs[i + 1]; }
    }
  }

  /** The parser sees exactly the components of a formatted ID, after an
      empty piece for the leading '/'. */
  lemma {:induction false} SplitFormat(shape: Shape, vs: seq<string>)
    requires |vs| == ValueCount(shape)
    requires shape != End
    requires LiteralsWellFormed(shape)
    requires SeparatorFree(vs)
    ensures Format(shape, vs) != ""
    ensures Split(Format(shape, vs)) == [""] + Pieces(shape, vs)
  {
    var seg := shape.head;
    var p := HeadPiece(seg, vs);
    var tvs := TailValues(seg, vs);
    ValuesTail(seg, vs);
    var r := Format(shape.tail, tvs);
    assert Format(shape, vs) == "/" + (p + r);
    SplitSlash(p + r);
    if shape.tail == End {
      assert p + r == p;
      SplitNoSeparator(p);
    } else {
      SplitFormat(shape.tail, tvs);
      assert r == "/" + r[1..];
      SplitSlash(r[1..]);
      assert Split(r[1..]) == ([""] + Split(r[1..]))[1..] == Pieces(shape.tail, tvs);
      assert p + r == p + "/" + r[1..];
      assert '/' !in p;
      SplitCons(p, r[1..]);
    }
  }

  // ---------------------------------------------------------------------------
  // Parse
  // ---------------------------------------------------------------------------

  /** Walks the shape and the path components in lockstep, collecting values.
      Literals must equal their declared token exactly (case-sensitively);
      values must be non-empty; nothing may be left over. */
  function Walk(shape: Shape, ps: seq<string>): (r: Result<seq<string>, ParseError>)
    ensures r.Success? ==> |r.value| == ValueCount(shape) && |ps| == Length(shape)
  {
    match shape
    case End =>
      if ps == [] then Success([]) else Failure(TrailingContent(ps))
    case Then(Literal(token), tail) =>
      if ps == [] || ps[0] == "" then Failure(MissingSegment(token))
      else if ps[0] != token then Failure(UnexpectedSegment(token, ps[0]))
      else Walk(tail, ps[1..])
    case Then(Value(name), tail) =>
      if ps == [] then Failure(MissingSegment(name))
      else if ps[0] == "" then Failure(EmptyValue(name))
      else match Walk(tail, ps[1..])
        case Success(rest) => Success([ps[0]] + rest)
        case Failure(e) => Failure(e)
  }

  /** Parses `s` as an ID of `shape`, giving its values in declaration order:
      the empty string is rejected, the string must start with '/', and the
      pieces after it must walk the shape. */
  function Parse(shape: Shape, s: string): (r: Result<seq<string>, ParseError>)
    ensures s == "" ==> r == Failure(EmptyInput)
    ensures r.Success? ==> |r.value| == ValueCount(shape)
  {
    if s == "" then Failure(EmptyInput)
    else
      var ps := Split(s);
      if ps[0] != "" then Failure(MissingLeadingSlash)
      else Walk(shape, ps[1..])
  }

  /** Walking the components of a well-formed ID gives back its values. */
  lemma {:induction false} WalkPieces(shape: Shape, vs: seq<string>)
    requires LiteralsWellFormed(shape)
    requires |vs| == ValueCount(shape)
    requires ValidValues(vs)
    ensures Walk(shape, Pieces(shape, vs)) == Success(vs)
  {
    if shape != End {
      var seg := shape.head;
      var tvs := TailValues(seg, vs);
      var ps := Pieces(shape, vs);
      assert ps[1..] == Pieces(shape.tail, tvs);
      assert ValidValues(tvs) by {
        forall i | 0 <= i < |tvs| ensures ValidValue(tvs[i]) {
          if seg.Value? { assert tvs[i] == vs[i + 1]; }
        }
      }
      WalkPieces(shape.tail, tvs);
      if seg.Value? {
        assert ValidValue(vs[0]);
        assert [vs[0]] + vs[1..] == vs;
      }
    }
  }

  /** A successful walk over separator-free components yields valid values
      whose components are exactly the ones walked. */
  lemma {:induction false} WalkSound(shape: Shape, ps: seq<string>, vs: seq<string>)
    requires SeparatorFree(ps)
    requires Walk(shape, ps) == Success(vs)
    ensures |vs| == ValueCount(shape)
    ensures ValidValues(vs)
    ensures Pieces(shape, vs) == ps
  {
    if shape != End {
      assert SeparatorFree(ps[1..]) by {
        forall i | 0 <= i < |ps[1..]| ensures '/' !in ps[1..][i] {
          assert ps[1..][i] == ps[i + 1];
        }
      }
      if shape.head.Literal? {
        WalkSound(shape.tail, ps[1..], vs);
        assert ps == [ps[0]] + ps[1..];
      } else {
        var rest := Walk(shape.tail, ps[1..]).value;
        WalkSound(shape.tail, ps[1..], rest);
        assert vs == [ps[0]] + rest;
        assert vs[1..] == rest;
        assert ps == [ps[0]] + ps[1..];
        assert '/' !in ps[0];
        assert ValidValues(vs) by {
          forall i | 0 <= i < |vs| ensures ValidValue(vs[i]) {
            if i > 0 { assert vs[i] == rest[i - 1]; }
          }
        }
      }
    }
  }

  /** Parsing a formatted ID is walking its components. */
  lemma ParseOfFormat(shape: Shape, vs: seq<string>)
    requires ValidShape(shape)
    requires |vs| == ValueCount(shape)
    requires SeparatorFree(vs)
    ensures Parse(shape, Format(shape, vs)) == Walk(shape, Pieces(shape, vs))
  {
    SplitFormat(shape, vs);
    assert ([""] + Pieces(shape, vs))[1..] == Pieces(shape, vs);
  }

  // ---------------------------------------------------------------------------
  // The round-trip laws
  // ---------------------------------------------------------------------------

  /** Parsing a formatted ID gives back exactly the values it was formatted
      from, when they are non-empty and contain no '/'. */
  lemma ParseFormat(shape: Shape, vs: seq<string>)
    requires ValidShape(shape)
    requires |vs| == ValueCount(shape)
    requires ValidValues(vs)
    ensures Parse(shape, Format(shape, vs)) == Success(vs)
  {
    ParseOfFormat(shape, vs);
    WalkPieces(shape, vs);
  }

  /** Every string the parser accepts is the canonical formatting of the
      values it returns, and those values are non-empty and slash-free. */
  lemma FormatParse(shape: Shape, s: string, vs: seq<string>)
    requires Parse(shape, s) == Success(vs)
    ensures |vs| == ValueCount(shape)
    ensures ValidValues(vs)
    ensures Format(shape, vs) == s
  {
    var ps := Split(s);
    assert SeparatorFree(ps[1..]) by {
      forall i | 0 <= i < |ps[1..]| ensures '/' !in ps[1..][i] {
        assert ps[1..][i] == ps[i + 1];
      }
    }
    WalkSound(shape, ps[1..], vs);
    JoinSplit(s);
    assert |ps| == 1 ==> s == "";
    assert ps == [""] + ps[1..];
    JoinCons("", ps[1..]);
    FormatJoin(shape, vs);
  }

  /** The parser accepts exactly the canonical strings: `s` parses to `vs` if
      and only if `vs` is a valid value tuple for the shape and `s` is its
      formatting. */
  lemma ParseIff(shape: Shape, s: string, vs: seq<string>)
    requires ValidShape(shape)
    ensures Parse(shape, s) == Success(vs) <==>
      (|vs| == ValueCount(shape) && ValidValues(vs) && s == Format(shape, vs))
  {
    if Parse(shape, s) == Success(vs) {
      FormatParse(shape, s, vs);
    }
    if |vs| == ValueCount(shape) && ValidValues(vs) && s == Format(shape, vs) {
      ParseFormat(shape, vs);
    }
  }

  /** Equal strings mean equal IDs: formatting is injective on valid values. */
  lemma FormatInjective(shape: Shape, vs: seq<string>, ws: seq<string>)
    requires ValidShape(shape)
    requires |vs| == ValueCount(shape) && ValidValues(vs)
    requires |ws| == ValueCount(shape) && ValidValues(ws)
    requires Format(shape, vs) == Format(shape, ws)
    ensures vs == ws
  {
    ParseFormat(shape, vs);
    ParseFormat(shape, ws);
  }

  // ---------------------------------------------------------------------------
  // Rejections
  // ---------------------------------------------------------------------------

  /** Walking components that hold an empty value fails. */
  lemma {:induction false} WalkEmptyValueFails(shape: Shape, vs: seq<string>, k: nat)
    requires |vs| == ValueCount(shape)
    requires k < |vs| && vs[k] == ""
    ensures Walk(shape, Pieces(shape, vs)).Failure?
  {
    var seg := shape.head;
    var ps := Pieces(shape, vs);
    assert ps[1..] == Pieces(shape.tail, TailValues(seg, vs));
    if seg.Literal? {
      WalkEmptyValueFails(shape.tail, vs, k);
    } else if k > 0 {
      WalkEmptyValueFails(shape.tail, vs[1..], k - 1);
    }
  }

  /** Construction does not validate, parsing does: an ID built with an empty
      value formats into a string the parser rejects. */
  lemma EmptyValueNotReparsed(shape: Shape, vs: seq<string>, k: nat)
    requires ValidShape(shape)
    requires |vs| == ValueCount(shape)
    requires SeparatorFree(vs)
    requires k < |vs| && vs[k] == ""
    ensures Parse(shape, Format(shape, vs)).Failure?
  {
    ParseOfFormat(shape, vs);
    WalkEmptyValueFails(shape, vs, k);
  }

  /** A proper prefix of "/" + p + r that ends in '/' and is longer than "/"
      runs through the whole of p, when p has no separator. */
  lemma PrefixPastHead(p: string, r: string, u: string)
    requires '/' !in p
    requires u < "/" + p + r && u != "/" && |u| > 0 && u[|u| - 1] == '/'
    ensures |u| >= |p| + 2
    ensures u == "/" + p + u[|p| + 1..]
    ensures u[|p| + 1..] < r
  {
    var f := "/" + p + r;
    assert |u| >= |p| + 2 by {
      assert f[|u| - 1] == u[|u| - 1];
    }
    assert u[..|p| + 1] == f[..|p| + 1] == "/" + p;
    assert u == u[..|p| + 1] + u[|p| + 1..];
    assert f[|p| + 1..] == r;
  }

  /** The pieces after the leading '/' of "/" + p + w, where w starts a new
      component. */
  lemma SplitAfterHead(p: string, w: string)
    requires '/' !in p
    requires |w| > 0 && w[0] == '/'
    ensures Split("/" + p + w)[1..] == [p] + Split(w)[1..]
  {
    var t := w[1..];
    assert w == "/" + t;
    assert "/" + p + w == "/" + (p + "/" + t);
    SplitSlash(p + "/" + t);
    SplitCons(p, t);
    SplitSlash(t);
  }

  /** The pieces after the leading '/' of a proper prefix of an ID that ends
      in '/' cannot walk the shape: where the prefix stops, the walk meets an
      empty piece that is neither a literal token nor a value. */
  lemma {:induction false} WalkProperPrefixFails(shape: Shape, vs: seq<string>, u: string)
    requires LiteralsWellFormed(shape)
    requires |vs| == ValueCount(shape)
    requires SeparatorFree(vs)
    requires u < Format(shape, vs) && |u| > 0 && u[|u| - 1] == '/'
    ensures u[0] == '/'
    ensures |Split(u)| >= 2 && Walk(shape, Split(u)[1..]).Failure?
  {
    if shape != End {
      var seg := shape.head;
      var p := HeadPiece(seg, vs);
      var tvs := TailValues(seg, vs);
      ValuesTail(seg, vs);
      var r := Format(shape.tail, tvs);
      assert Format(shape, vs) == "/" + p + r;
      assert u[0] == '/';
      if u == "/" {
        SplitSlash("");
        assert Split(u) == ["", ""];
      } else {
        PrefixPastHead(p, r, u);
        var u' := u[|p| + 1..];
        WalkProperPrefixFails(shape.tail, tvs, u');
        SplitAfterHead(p, u');
      }
    }
  }

  /** A string that stops right after the shape's leading literal and its '/'
      leaves the value that follows empty, and is rejected. */
  lemma LiteralThenEmptyValueRejected(token: string, name: string, tail: Shape, s: string)
    requires '/' !in token
    requires s == "/" + token + "/"
    ensures Parse(Then(Literal(token), Then(Value(name), tail)), s).Failure?
  {
    assert s == "/" + (token + "/" + "");
    SplitSlash(token + "/" + "");
    SplitCons(token, "");
    SplitNoSeparator("");
    assert Split(s)[1..] == [token, ""];
    assert [token, ""][1..] == [""];
    assert Walk(Then(Value(name), tail), [""]).Failure?;
    assert Walk(Then(Literal(token), Then(Value(name), tail)), [token, ""]).Failure?;
  }

  /** Every proper prefix of a valid ID that ends in '/' is rejected: "/", a
      prefix that stops before a literal, and one that stops before a value. */
  lemma ProperPrefixRejected(shape: Shape, vs: seq<string>, u: string)
    requires LiteralsWellFormed(shape)
    requires |vs| == ValueCount(shape)
    requires SeparatorFree(vs)
    requires u < Format(shape, vs) && |u| > 0 && u[|u| - 1] == '/'
    ensures Parse(shape, u).Failure?
  {
    WalkProperPrefixFails(shape, vs, u);
    assert u == "/" + u[1..];
    SplitSlash(u[1..]);
  }

  // ---------------------------------------------------------------------------
  // Case sensitivity
  // ---------------------------------------------------------------------------

  /** ASCII upper-casing of one character. */
  function UpperChar(c: char): char {
    if 'a' <= c <= 'z' then (c as int - 32) as char else c
  }

  /** ASCII upper-casing of a string, character by character. */
  function Upper(s: string): (r: string)
    ensures |r| == |s|
    ensures forall i :: 0 <= i < |s| ==> r[i] == UpperChar(s[i])
  {
    if s == [] then [] else [UpperChar(s[0])] + Upper(s[1..])
  }

  function UpperAll(p: seq<string>): (r: seq<string>)
    ensures |r| == |p|
    ensures forall i :: 0 <= i < |p| ==> r[i] == Upper(p[i])
  {
    if p == [] then [] else [Upper(p[0])] + UpperAll(p[1..])
  }

  /** A string that starts with a lower-case letter is changed by upper-casing. */
  lemma UpperChangesLowerStart(s: string)
    requires |s| > 0 && 'a' <= s[0] <= 'z'
    ensures Upper(s) != s
  {
    assert Upper(s)[0] != s[0];
  }

  /** The shape has a literal token that upper-casing changes. */
  predicate HasRecasedLiteral(shape: Shape) {
    match shape
    case End => false
    case Then(seg, tail) => (seg.Literal? && Upper(seg.token) != seg.token) || HasRecasedLiteral(tail)
  }

  lemma UpperAppend(a: string, b: string)
    ensures Upper(a + b) == Upper(a) + Upper(b)
  {
    assert forall i :: 0 <= i < |a + b| ==> Upper(a + b)[i] == (Upper(a) + Upper(b))[i];
  }

  lemma {:induction false} UpperJoin(p: seq<string>)
    ensures Upper(Join(p)) == Join(UpperAll(p))
  {
    if |p| > 1 {
      UpperJoin(p[1..]);
      UpperAppend(p[0], "/" + Join(p[1..]));
      UpperAppend("/", Join(p[1..]));
      assert Upper("/") == "/";
      assert UpperAll(p)[1..] == UpperAll(p[1..]);
    }
  }

  /** Upper-casing the components of an ID makes the walk fail at the first
      literal token that upper-casing changes. */
  lemma {:induction false} WalkUpperFails(shape: Shape, vs: seq<string>)
    requires |vs| == ValueCount(shape)
    requires ValidValues(vs)
    requires HasRecasedLiteral(shape)
    ensures Walk(shape, UpperAll(Pieces(shape, vs))).Failure?
  {
    var seg := shape.head;
    var tvs := TailValues(seg, vs);
    var ps := UpperAll(Pieces(shape, vs));
    assert ps[1..] == UpperAll(Pieces(shape.tail, tvs));
    if !(seg.Literal? && Upper(seg.token) != seg.token) {
      assert ValidValues(tvs) by {
        forall i | 0 <= i < |tvs| ensures ValidValue(tvs[i]) {
          if seg.Value? { assert tvs[i] == vs[i + 1]; }
        }
      }
      if seg.Value? {
        assert ps[0] == Upper(vs[0]) && |ps[0]| == |vs[0]| > 0;
      }
      WalkUpperFails(shape.tail, tvs);
    }
  }

  lemma UpperKeepsSeparatorFree(p: seq<string>)
    requires SeparatorFree(p)
    ensures SeparatorFree(UpperAll(p))
  {
    forall i | 0 <= i < |p| ensures '/' !in UpperAll(p)[i] {
      assert forall j :: 0 <= j < |p[i]| ==> Upper(p[i])[j] == UpperChar(p[i][j]);
    }
  }

  /** The upper-cased ID is rejected, whatever its values, whenever one of its
      literal tokens has a lower-case letter: tokens match only in their
      declared casing. */
  lemma UpperCasedRejected(shape: Shape, vs: seq<string>)
    requires ValidShape(shape)
    requires |vs| == ValueCount(shape)
    requires ValidValues(vs)
    requires HasRecasedLiteral(shape)
    ensures Parse(shape, Upper(Format(shape, vs))).Failure?
  {
    var p := Pieces(shape, vs);
    assert SeparatorFree(vs);
    SplitFormat(shape, vs);
    FormatJoin(shape, vs);
    JoinCons("", p);
    UpperJoin([""] + p);
    var q := UpperAll([""] + p);
    assert q == [""] + UpperAll(p);
    assert SeparatorFree([""] + p) by {
      assert SeparatorFree(Split(Format(shape, vs)));
    }
    UpperKeepsSeparatorFree([""] + p);
    SplitJoin(q);
    assert q[1..] == UpperAll(p);
    WalkUpperFails(shape, vs);
  }
}
