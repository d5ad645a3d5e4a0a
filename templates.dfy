/**
 * Info-card templates (js/renderer.js, resolveTemplate and the row value of renderInfoCards).
 *
 * A template is text with `{path}` placeholders. A path starts with `common` or `profile`
 * and the rest of it is looked up in that record by `safeGet`, which lives outside this model
 * and is the parameter `get`. Values are JavaScript values, reduced to what the replacement
 * rule inspects.
 */
module Templates {
  import opened Options

  /** The two records a placeholder may name. */
  datatype Scope = Common | Profile

  datatype Value =
    | Undefined
    | Null
    | Bool(b: bool)
    | Num(n: int)
    | Str(s: string)
    | Obj(fields: map<string, Value>)

  /** JavaScript truthiness. */
  predicate Truthy(v: Value) {
    match v
    case Undefined => false
    case Null => false
    case Bool(b) => b
    case Num(n) => n != 0
    case Str(s) => s != ""
    case Obj(_) => true
  }

  /** `v.name`: a missing property reads as `undefined`. */
  function Field(v: Value, name: string): Value {
    if v.Obj? && name in v.fields then v.fields[name] else Undefined
  }

  /** The number a string of decimal digits denotes, most significant digit first. */
  function Decimal(r: string): nat
    requires forall i :: 0 <= i < |r| ==> '0' <= r[i] <= '9'
  {
    if r == [] then 0 else 10 * Decimal(r[..|r| - 1]) + (r[|r| - 1] - '0') as nat
  }

  /** The decimal numeral of `n`: digits only, and read back it denotes `n`. */
  function Digits(n: nat): (r: string)
    ensures r != [] && forall i :: 0 <= i < |r| ==> '0' <= r[i] <= '9'
    ensures Decimal(r) == n
    ensures r[0] == '0' ==> n == 0 && r == "0"
  {
    var d := ['0' + (n % 10) as char];
    if n < 10 then d else Digits(n / 10) + d
  }

  /** `String(v)`, as a template literal or `String.prototype.replace` turns a value into text. */
  function Text(v: Value): (r: string)
    ensures Truthy(v) ==> r != ""
    ensures v.Str? ==> r == v.s
    ensures v.Num? && v.n >= 0 ==>
              && r != [] && (forall i :: 0 <= i < |r| ==> '0' <= r[i] <= '9') && Decimal(r) == v.n
              && (r[0] == '0' ==> v.n == 0 && r == "0")
    ensures v.Num? && v.n < 0 ==>
              && r != [] && r[0] == '-'
              && |r| >= 2 && (forall i :: 1 <= i < |r| ==> '0' <= r[i] <= '9') && Decimal(r[1..]) == -v.n
              && r[1] != '0'
  {
    match v
    case Undefined => "undefined"
    case Null => "null"
    case Bool(b) => if b then "true" else "false"
    case Num(n) => if n < 0 then "-" + Digits(-n) else Digits(n)
    case Str(s) => s
    case Obj(_) => "[object Object]"
  }

  /** Position of the first '.' in `path`, or its length when there is none. */
  function DotAt(path: string): (k: nat)
    ensures k <= |path|
    ensures k < |path| ==> path[k] == '.'
    ensures forall j :: 0 <= j < k ==> path[j] != '.'
  {
    if path == [] || path[0] == '.' then 0 else 1 + DotAt(path[1..])
  }

  /** `path.split('.')[0]`: the longest '.'-free prefix of the path. */
  function Head(path: string): (h: string)
    ensures '.' !in h && h <= path
    ensures |h| < |path| ==> path[|h|] == '.'
  {
    path[..DotAt(path)]
  }

  /** `path.split('.').slice(1).join('.')`: everything after the first '.', or "" without one. */
  function Tail(path: string): (t: string)
    ensures '.' in path ==> path == Head(path) + "." + t
    ensures '.' !in path ==> t == ""
  {
    if DotAt(path) < |path| then path[DotAt(path) + 1..] else ""
  }

  /** The value a placeholder's path names; a path not rooted at `common` or `profile` names nothing. */
  function Lookup(path: string, get: (Scope, string) -> Value): (v: Value)
    ensures Head(path) != "common" && Head(path) != "profile" ==> v == Undefined
  {
    if Head(path) == "common" then get(Common, Tail(path))
    else if Head(path) == "profile" then get(Profile, Tail(path))
    else Undefined
  }

  /** A path whose first segment is `w` looks up everything after the first '.' in that record. */
  lemma {:induction false} DotAfterWord(w: string, rest: string)
    requires '.' !in w
    ensures DotAt(w + "." + rest) == |w|
    decreases |w|
  {
    if w != [] {
      assert (w + "." + rest)[1..] == w[1..] + "." + rest;
      assert '.' !in w[1..];
      DotAfterWord(w[1..], rest);
    }
  }

  /**
   * `{common.x}` and `{profile.x}` look up `x` in that record, and a bare `common` or
   * `profile` looks up the empty path.
   */
  lemma LookupRoots(rest: string, get: (Scope, string) -> Value)
    ensures Lookup("common." + rest, get) == get(Common, rest)
    ensures Lookup("profile." + rest, get) == get(Profile, rest)
    ensures Lookup("common", get) == get(Common, "")
    ensures Lookup("profile", get) == get(Profile, "")
  {
    DotAfterWord("common", rest);
    assert "common." + rest == "common" + "." + rest;
    assert ("common." + rest)[..6] == "common";
    assert ("common." + rest)[7..] == rest;
    DotAfterWord("profile", rest);
    assert "profile." + rest == "profile" + "." + rest;
    assert ("profile." + rest)[..7] == "profile";
    assert ("profile." + rest)[8..] == rest;
    assert '.' !in "common" && '.' !in "profile";
  }

  /** The text that replaces the placeholder `{path}`. */
  function Replacement(path: string, get: (Scope, string) -> Value): (r: string)
    ensures Head(path) != "common" && Head(path) != "profile" ==> r == ""
    ensures !Truthy(Lookup(path, get)) ==> r == ""
    ensures var v := Lookup(path, get);
            v.Obj? && Truthy(Field(v, "title")) && Truthy(Field(v, "artist")) ==>
              r == Text(Field(v, "title")) + " (" + Text(Field(v, "artist")) + ")"
    ensures var v := Lookup(path, get);
            v.Obj? && !(Truthy(Field(v, "title")) && Truthy(Field(v, "artist"))) && Truthy(Field(v, "name")) ==>
              r == Text(Field(v, "name"))
    ensures var v := Lookup(path, get);
            Truthy(v) && !(v.Obj? && ((Truthy(Field(v, "title")) && Truthy(Field(v, "artist"))) || Truthy(Field(v, "name")))) ==>
              r == Text(v)
  {
    var value := Lookup(path, get);
    if Truthy(value) && value.Obj? && Truthy(Field(value, "title")) && Truthy(Field(value, "artist")) then
      Text(Field(value, "title")) + " (" + Text(Field(value, "artist")) + ")"
    else if Truthy(value) && value.Obj? && Truthy(Field(value, "name")) then
      Text(Field(value, "name"))
    else if Truthy(value) then
      Text(value)
    else
      ""
  }

  /** Position of the first '}' at or after `i`, or the length of `s` when there is none. */
  function CloseAt(s: string, i: nat): (j: nat)
    requires i <= |s|
    ensures i <= j <= |s|
    ensures j < |s| ==> s[j] == '}'
    ensures forall k :: i <= k < j ==> s[k] != '}'
    decreases |s| - i
  {
    if i == |s| || s[i] == '}' then i else CloseAt(s, i + 1)
  }

  /** The replacement rule of `resolveTemplate` for the records `get` reads from. */
  function Replacer(get: (Scope, string) -> Value): (repl: string -> string)
    ensures forall p :: repl(p) == Replacement(p, get)
  {
    p => Replacement(p, get)
  }

  /**
   * `s.replace(/\{([^}]+)\}/g, ...)`: scanning left to right, a '{' followed by at least one
   * character before the next '}' is a placeholder, replaced by `repl` of what it holds; any
   * other character is copied.
   */
  function Substitute(s: string, repl: string -> string): (r: string)
    ensures s == [] ==> r == []
    ensures s != [] && s[0] != '{' ==> r != [] && r[0] == s[0]
    decreases |s|
  {
    if s == [] then []
    else if s[0] == '{' && 1 < CloseAt(s, 1) < |s| then
      repl(s[1..CloseAt(s, 1)]) + Substitute(s[CloseAt(s, 1) + 1..], repl)
    else
      [s[0]] + Substitute(s[1..], repl)
  }

  /** `resolveTemplate`: an absent or empty template gives ""; otherwise every placeholder is replaced. */
  function ResolveTemplate(template: Option<string>, get: (Scope, string) -> Value): (r: string)
    ensures template.None? || template.value == "" ==> r == ""
  {
    if template.None? || template.value == "" then "" else Substitute(template.value, Replacer(get))
  }

  /** A first character that does not open a placeholder is copied as it is. */
  lemma CopyStep(s: string, repl: string -> string)
    requires s != [] && (s[0] != '{' || CloseAt(s, 1) <= 1 || CloseAt(s, 1) == |s|)
    ensures Substitute(s, repl) == [s[0]] + Substitute(s[1..], repl)
  {
  }

  /** Text without '{' is copied unchanged. */
  lemma {:induction false} SubstituteLiteral(s: string, repl: string -> string)
    requires '{' !in s
    ensures Substitute(s, repl) == s
    decreases |s|
  {
    if s != [] {
      assert '{' !in s[1..];
      CopyStep(s, repl);
      SubstituteLiteral(s[1..], repl);
    }
  }

  /** Text before the first '{' is copied unchanged, whatever follows. */
  lemma {:induction false} SubstituteCopiesPrefix(p: string, s: string, repl: string -> string)
    requires '{' !in p
    ensures Substitute(p + s, repl) == p + Substitute(s, repl)
    decreases |p|
  {
    if p == [] {
      assert p + s == s;
    } else {
      var t := p + s;
      assert t[0] == p[0];
      assert t[1..] == p[1..] + s;
      assert '{' !in p[1..];
      CopyStep(t, repl);
      SubstituteCopiesPrefix(p[1..], s, repl);
      assert [p[0]] + (p[1..] + Substitute(s, repl)) == p + Substitute(s, repl);
    }
  }

  /** A placeholder `{p}` is replaced by `repl(p)`, and scanning resumes after its '}'. */
  lemma SubstitutePlaceholder(p: string, rest: string, repl: string -> string)
    requires p != [] && '}' !in p
    ensures Substitute("{" + p + "}" + rest, repl) == repl(p) + Substitute(rest, repl)
  {
    var t := "{" + p + "}" + rest;
    var j := CloseAt(t, 1);
    assert t[|p| + 1] == '}';
    assert forall k :: 1 <= k <= |p| ==> t[k] == p[k - 1];
    assert j == |p| + 1;
    assert t[1..j] == p;
    assert t[j + 1..] == rest;
  }

  /** A template that is exactly one placeholder `{p}` becomes `repl(p)`. */
  lemma SinglePlaceholder(p: string, repl: string -> string)
    requires p != [] && '}' !in p
    ensures Substitute("{" + p + "}", repl) == repl(p)
  {
    SubstitutePlaceholder(p, "", repl);
    assert "{" + p + "}" + "" == "{" + p + "}";
  }

  /** A root followed by a '}'-free rest is a non-empty placeholder body. */
  lemma RootedPathShape(root: string, rest: string)
    requires root != [] && '}' !in root && '}' !in rest
    ensures root + rest != [] && '}' !in root + rest
    ensures "{" + root + rest + "}" == "{" + (root + rest) + "}"
  {
    var p := root + rest;
    assert forall k :: 0 <= k < |p| ==> p[k] == (if k < |root| then root[k] else rest[k - |root|]);
  }

  /** A template that is exactly one placeholder `{p}` resolves to the replacement text for `p`. */
  lemma ResolveSingle(p: string, get: (Scope, string) -> Value)
    requires p != [] && '}' !in p
    ensures ResolveTemplate(Some("{" + p + "}"), get) == Replacement(p, get)
  {
    SinglePlaceholder(p, Replacer(get));
  }

  /**
   * The template `{common.x}` (or `{profile.x}`) resolves to the replacement text of the
   * value that `LookupRoots` finds under `x` in that record.
   */
  lemma ResolveRootedPlaceholder(root: string, rest: string, get: (Scope, string) -> Value)
    requires root == "common." || root == "profile."
    requires '}' !in rest
    ensures ResolveTemplate(Some("{" + root + rest + "}"), get) == Replacement(root + rest, get)
  {
    RootedPathShape(root, rest);
    ResolveSingle(root + rest, get);
  }

  /** "{}" holds nothing, so it is not a placeholder: both braces are copied. */
  lemma SubstituteEmptyBraces(rest: string, repl: string -> string)
    ensures Substitute("{}" + rest, repl) == "{}" + Substitute(rest, repl)
  {
    var t := "{}" + rest;
    assert t[1] == '}';
    assert CloseAt(t, 1) == 1;
    CopyStep(t, repl);
    var u := t[1..];
    assert u == "}" + rest;
    CopyStep(u, repl);
    assert u[1..] == rest;
  }

  /** In a template, a placeholder rooted anywhere but `common` or `profile` disappears from the text. */
  lemma UnknownRootVanishes(p: string, rest: string, get: (Scope, string) -> Value)
    requires p != [] && '}' !in p && Head(p) != "common" && Head(p) != "profile"
    ensures Substitute("{" + p + "}" + rest, Replacer(get)) == Substitute(rest, Replacer(get))
  {
    SubstitutePlaceholder(p, rest, Replacer(get));
  }

  /** A row of an info card: the main template and an optional fallback template. */
  datatype Row = Row(template: Option<string>, fallback: Option<string>)

  /** A row's value: the fallback is resolved only when the main template resolves to "". */
  function RowValue(row: Row, get: (Scope, string) -> Value): (r: string)
    ensures ResolveTemplate(row.template, get) != "" ==> r == ResolveTemplate(row.template, get)
    ensures ResolveTemplate(row.template, get) == "" ==> r == ResolveTemplate(row.fallback, get)
  {
    var value := ResolveTemplate(row.template, get);
    if value == "" && row.fallback.Some? && row.fallback.value != "" then ResolveTemplate(row.fallback, get) else value
  }
}
