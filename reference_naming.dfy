/** Stable component names for types: `GetReferenceId` and `IsAnonymousType` of
    OpenApiComponentService. A .NET `Type` is modelled by the part of it these two functions read. */
module ReferenceNaming {
  import opened Text

  /** A runtime type as naming sees it. `genericArgs` is `GetGenericArguments()`; a type is a constructed
      generic exactly when it has arguments (open generic definitions never reach the resolver). */
  datatype ClrType = ClrType(
    ns: string,
    name: string,
    genericArgs: seq<ClrType>,
    isClass: bool,
    isCompilerGenerated: bool,
    isNested: bool)

  predicate IsConstructedGeneric(t: ClrType) {
    |t.genericArgs| > 0
  }

  /** The compiler's shape of an anonymous type: a top-level, compiler-generated class whose name starts
      with `<>` and mentions `__Anonymous`. */
  predicate IsAnonymousType(t: ClrType) {
    && t.isClass
    && t.isCompilerGenerated
    && !t.isNested
    && HasPrefix(t.name, "<>")
    && Contains(t.name, "__Anonymous")
  }

  /** The component name of a type: the simple name with `[]` spelled `Array`, or, for a constructed
      generic, the names of its arguments in order followed by its `Suffix`. */
  function GetReferenceId(t: ClrType): string
    decreases t
  {
    if !IsConstructedGeneric(t) then ReplaceBrackets(t.name)
    else ArgumentsId(t.genericArgs) + Suffix(t)
  }

  /** `Select(GetReferenceId).Aggregate((previous, current) => previous + current)`: the names of the
      arguments, concatenated in order. */
  function ArgumentsId(ts: seq<ClrType>): string
    decreases ts
  {
    if ts == [] then "" else ArgumentsId(ts[..|ts| - 1]) + GetReferenceId(ts[|ts| - 1])
  }

  /** What follows the argument names of a constructed generic: `AnonymousType`, or the name up to its
      arity marker. */
  function Suffix(t: ClrType): string {
    if IsAnonymousType(t) then "AnonymousType" else Before(t.name, '`')
  }

  /** A non-generic type is named after its simple name with each `[]` replaced by `Array`: no `[]` is
      left, a trailing `[]` becomes a trailing `Array` (`Int32[]` is named `Int32Array`), and a name
      without brackets is kept as it is. */
  lemma SimpleTypeId(t: ClrType)
    requires !IsConstructedGeneric(t)
    ensures GetReferenceId(t) == ReplaceBrackets(t.name)
    ensures NoEmptyBrackets(GetReferenceId(t))
    ensures Free(t.name, '[') ==> GetReferenceId(t) == t.name
    ensures forall n :: t.name == n + "[]" ==> GetReferenceId(t) == ReplaceBrackets(n) + "Array"
    ensures forall n :: t.name == n + "[]" && Free(n, '[') ==> GetReferenceId(t) == n + "Array"
  {
    ReplaceBracketsSpec(t.name);
    forall n | t.name == n + "[]" ensures GetReferenceId(t) == ReplaceBrackets(n) + "Array" {
      ReplaceBracketsSnoc(n);
    }
    forall n | t.name == n + "[]" && Free(n, '[') ensures ReplaceBrackets(n) == n {
      ReplaceBracketsSpec(n);
    }
  }

  /** A constructed generic is named by the concatenated argument names followed by a suffix that is
      `AnonymousType` for anonymous types and otherwise the name up to the first backtick, which the
      name then no longer contains. */
  lemma GenericTypeId(t: ClrType)
    requires IsConstructedGeneric(t)
    ensures GetReferenceId(t) == ArgumentsId(t.genericArgs) + (if IsAnonymousType(t) then "AnonymousType" else Before(t.name, '`'))
    ensures !IsAnonymousType(t) ==> Free(GetReferenceId(t)[|ArgumentsId(t.genericArgs)|..], '`')
  {
    var prefix := ArgumentsId(t.genericArgs);
    assert GetReferenceId(t)[|prefix|..] == Suffix(t);
    BeforeIsFirstSegment(t.name, '`');
  }

  /** Appending an argument appends its name. */
  lemma ArgumentsIdSnoc(ts: seq<ClrType>, a: ClrType)
    ensures ArgumentsId(ts + [a]) == ArgumentsId(ts) + GetReferenceId(a)
  {
    assert (ts + [a])[..|ts|] == ts;
  }

  /** The suffix does not depend on the arguments. */
  lemma SuffixOfInstance(g: ClrType, args: seq<ClrType>)
    ensures Suffix(g.(genericArgs := args)) == Suffix(g)
  {
    assert IsAnonymousType(g.(genericArgs := args)) == IsAnonymousType(g);
  }

  /** Two instantiations of one generic definition with one argument each get the same name exactly when
      their arguments do: `List<A>` and `List<B>` are told apart whenever `A` and `B` are. */
  lemma SingleArgumentNaming(g: ClrType, a: ClrType, b: ClrType)
    ensures GetReferenceId(g.(genericArgs := [a])) == GetReferenceId(g.(genericArgs := [b]))
        <==> GetReferenceId(a) == GetReferenceId(b)
  {
    SingleArgumentId(g, a);
    SingleArgumentId(g, b);
    var ia, ib := GetReferenceId(a), GetReferenceId(b);
    if ia + Suffix(g) == ib + Suffix(g) {
      assert ia == (ia + Suffix(g))[..|ia|];
    }
  }

  /** A one-argument instantiation is named by its argument followed by the definition's suffix. */
  lemma SingleArgumentId(g: ClrType, a: ClrType)
    ensures GetReferenceId(g.(genericArgs := [a])) == GetReferenceId(a) + Suffix(g)
  {
    ArgumentsIdOne(a);
    SuffixOfInstance(g, [a]);
  }

  lemma ArgumentsIdOne(a: ClrType)
    ensures ArgumentsId([a]) == GetReferenceId(a)
  {
    assert [a][..0] == [];
  }

  /** A two-argument instantiation is named by both arguments followed by the definition's suffix. */
  lemma TwoArgumentId(g: ClrType, a: ClrType, b: ClrType)
    ensures GetReferenceId(g.(genericArgs := [a, b])) == GetReferenceId(a) + GetReferenceId(b) + Suffix(g)
  {
    ArgumentsIdTwo(a, b);
    SuffixOfInstance(g, [a, b]);
  }

  lemma ArgumentsIdTwo(a: ClrType, b: ClrType)
    ensures ArgumentsId([a, b]) == GetReferenceId(a) + GetReferenceId(b)
  {
    assert [a, b][..1] == [a];
    ArgumentsIdOne(a);
  }

  /** `Pair<X, Y>` of two ordinary classes is named `XYPair`. */
  lemma PairId(x: string, y: string)
    requires Free(x, '[') && Free(y, '[')
    ensures GetReferenceId(Pair(x, y)) == x + y + "Pair"
  {
    var pair := Pair(x, y).(genericArgs := []);
    assert Before("Pair`2", '`') == "Pair" by {
      assert "Pair`2"[1..] == "air`2" && "air`2"[1..] == "ir`2" && "ir`2"[1..] == "r`2" && "r`2"[1..] == "`2";
    }
    ReplaceBracketsSpec(x);
    ReplaceBracketsSpec(y);
    TwoArgumentId(pair, Simple(x), Simple(y));
    assert pair.(genericArgs := [Simple(x), Simple(y)]) == Pair(x, y);
  }

  /** The constructed type `Pair<X, Y>` of namespace `N`. */
  function Pair(x: string, y: string): ClrType {
    ClrType("N", "Pair`2", [Simple(x), Simple(y)], true, false, false)
  }

  /** The names are not injective: two pairs whose argument names concatenate to the same text are
      different types with one name, as `Pair<A, BC>` and `Pair<AB, C>` are both named `ABCPair`. */
  lemma GenericIdCollision(x: string, y: string, x': string, y': string)
    requires Free(x, '[') && Free(y, '[') && Free(x', '[') && Free(y', '[')
    requires x + y == x' + y' && |x| != |x'|
    ensures Pair(x, y) != Pair(x', y')
    ensures GetReferenceId(Pair(x, y)) == x + y + "Pair" == GetReferenceId(Pair(x', y'))
  {
    PairId(x, y);
    PairId(x', y');
    PairsDiffer(x, x', y, y');
  }

  /** `Pair<A, BC>` and `Pair<AB, C>` are both named `ABCPair`. */
  lemma PairCollisionExample()
    ensures Pair("A", "BC") != Pair("AB", "C")
    ensures GetReferenceId(Pair("A", "BC")) == "ABCPair" == GetReferenceId(Pair("AB", "C"))
  {
    assert "A" + "BC" == "AB" + "C" && "A" + "BC" + "Pair" == "ABCPair";
    assert Free("A", '[') && Free("BC", '[') && Free("AB", '[') && Free("C", '[');
    GenericIdCollision("A", "BC", "AB", "C");
  }

  /** Pairs whose first arguments differ in length differ. */
  lemma PairsDiffer(x: string, x': string, y: string, y': string)
    requires |x| != |x'|
    ensures Pair(x, y) != Pair(x', y')
  {
    assert Pair(x, y).genericArgs[0].name == x;
  }

  /** An ordinary class of namespace `N`. */
  function Simple(name: string): ClrType {
    ClrType("N", name, [], true, false, false)
  }

  /** Types of one simple name in different namespaces share their name. */
  lemma NamespaceIdCollision()
    ensures var todo1 := ClrType("Shop", "Todo", [], true, false, false);
      var todo2 := ClrType("Home", "Todo", [], true, false, false);
      todo1 != todo2 && GetReferenceId(todo1) == GetReferenceId(todo2) == "Todo"
  {
    assert Free("Todo", '[');
    ReplaceBracketsSpec("Todo");
    assert "Shop" != "Home";
  }

  /** The name C# gives an anonymous type such as `new { Id = 1, Title = "" }`. */
  lemma CompilerAnonymousType()
    ensures IsAnonymousType(ClrType("", "<>f__AnonymousType0`2", [], true, true, false))
  {
    var n := "<>f__AnonymousType0`2";
    assert HasPrefix(n, "<>");
    assert HasPrefix(n[3..], "__Anonymous");
    assert Contains(n[3..], "__Anonymous");
    assert n[1..][1..] == n[2..] && n[2..][1..] == n[3..];
    assert Contains(n[2..], "__Anonymous");
    assert Contains(n[1..], "__Anonymous");
  }

  /** A type whose name starts like an ordinary C# identifier is never taken for an anonymous type. */
  lemma OrdinaryNamesAreNotAnonymous(t: ClrType)
    requires |t.name| > 0 && t.name[0] != '<'
    ensures !IsAnonymousType(t)
  {
  }

  /** An anonymous instantiation such as `<>f__AnonymousType0<int, string>` is named by its argument
      names followed by `AnonymousType`. */
  lemma AnonymousTypeId(t: ClrType)
    requires IsConstructedGeneric(t) && IsAnonymousType(t)
    ensures GetReferenceId(t) == ArgumentsId(t.genericArgs) + "AnonymousType"
  {
  }
}
