/** Names of functions and of their null variants. */
module SignatureNames {

  datatype TypeId =
    | None_ | Int | Long | Double | Boolean | Short | Decimal64 | Decimal128 | Date32 | Date64 | Time32 | Time64
      | Timestamp
    | IntervalMonths | IntervalDayTime | Varchar | Char | Container | Byte | Array | Invalid | Other

  function TypeToString(t: TypeId): string {
    match t
    case Boolean => "Bool"
    case Double => "Double"
    case Date32 => "Date32"
    case Time32 => "Time32"
    case Int => "Int32"
    case Short => "Int16"
    case Byte => "Int8"
    case Long => "Int64"
    case Date64 => "Date64"
    case Time64 => "Time64"
    case Timestamp => "Timestamp"
    case Varchar => "String"
    case Char => "Char"
    case Decimal64 => "Decimal64"
    case Decimal128 => "Decimal128"
    case None_ => "Void"
    case Invalid => "Invalid"
    case Container => "Container"
    case IntervalMonths => "Interval_month"
    case IntervalDayTime => "Interval_day_time"
    case Array => "Array"
    case Other => "UNKNOWN"
  }

  predicate IsInterval(t: TypeId) {
    t == IntervalMonths || t == IntervalDayTime
  }

  datatype Signature = Signature(funcName: string, paramTypes: seq<TypeId>, retType: TypeId)

  /** Each type behind an underscore. */
  function Suffix(types: seq<TypeId>): string {
    if types == [] then "" else "_" + TypeToString(types[0]) + Suffix(types[1..])
  }

  function Types(s: Signature): seq<TypeId> {
    s.paramTypes + [s.retType]
  }

  lemma {:induction false} SuffixAppend(a: seq<TypeId>, b: seq<TypeId>)
    ensures Suffix(a + b) == Suffix(a) + Suffix(b)
  {
    if a == [] {
      assert a + b == b;
    } else {
      assert (a + b)[1..] == a[1..] + b;
      SuffixAppend(a[1..], b);
    }
  }

  lemma EmptySuffix()
    ensures Suffix([]) == ""
  {
  }

  lemma OneSuffix(t: TypeId)
    ensures Suffix([t]) == "_" + TypeToString(t)
  {
    hide TypeToString;
    assert Suffix([t][1..]) == "";
  }

  /** The name, under the null overflow setting with "_null" behind the function's own name. */
  method ToString(s: Signature, nullConfig: bool) returns (result: string)
    ensures result == s.funcName + (if nullConfig then "_null" else "") + Suffix(Types(s))
  {
    hide Suffix, TypeToString;
    EmptySuffix();
    result := s.funcName;
    if nullConfig {
      result := result + "_null";
    }
    ghost var head := result;
    for i := 0 to |s.paramTypes|
      invariant result == head + Suffix(s.paramTypes[..i])
    {
      assert s.paramTypes[..i + 1] == s.paramTypes[..i] + [s.paramTypes[i]];
      SuffixAppend(s.paramTypes[..i], [s.paramTypes[i]]);
      OneSuffix(s.paramTypes[i]);
      result := result + "_";
      result := result + TypeToString(s.paramTypes[i]);
    }
    assert s.paramTypes[..|s.paramTypes|] == s.paramTypes;
    SuffixAppend(s.paramTypes, [s.retType]);
    OneSuffix(s.retType);
    result := result + "_" + TypeToString(s.retType);
  }

  // ---------- the scan ----------

  function Separators(s: string): nat {
    if s == "" then 0 else (if s[0] == '_' then 1 else 0) + Separators(s[1..])
  }

  lemma {:induction false} SeparatorsAppend(a: string, b: string)
    ensures Separators(a + b) == Separators(a) + Separators(b)
  {
    if a == "" {
      assert a + b == b;
    } else {
      assert (a + b)[1..] == a[1..] + b;
      SeparatorsAppend(a[1..], b);
    }
  }

  /** `pos` is the `n`-th separator from the right. */
  predicate NthFromRight(s: string, n: nat, pos: int) {
    0 <= pos < |s| && s[pos] == '_' && Separators(s[pos..]) == n
  }

  /** There is only one. */
  lemma NthUnique(s: string, n: nat, p: int, q: int)
    requires NthFromRight(s, n, p) && NthFromRight(s, n, q) && p <= q
    ensures p == q
  {
    if p < q {
      assert s[p..] == s[p..q] + s[q..] && s[p..q][0] == '_';
      SeparatorsAppend(s[p..q], s[q..]);
    }
  }

  function Inserted(s: string, pos: int): string
    requires 0 <= pos <= |s|
  {
    s[..pos] + "_null" + s[pos..]
  }

  lemma NoSeparators()
    ensures Separators("") == 0
  {
  }

  lemma OneMore(s: string, pos: nat)
    requires pos < |s|
    ensures Separators(s[pos..]) == (if s[pos] == '_' then 1 else 0) + Separators(s[pos + 1..])
  {
    assert s[pos..] == [s[pos]] + s[pos + 1..];
  }

  lemma EnoughSeparators(id: string, pos: nat)
    requires pos <= |id|
    ensures Separators(id[pos..]) <= Separators(id)
  {
    assert id == id[..pos] + id[pos..];
    SeparatorsAppend(id[..pos], id[pos..]);
  }

  /** Insert "_null" in front of as many trailing parts as the function has types. An id with too few separators has
      no place to insert at, and the insertion fails. */
  method ChangeFuncNameToNull(id: string, numArguments: nat) returns (pos: int, name: string)
    ensures Separators(id) >= numArguments + 1 ==> NthFromRight(id, numArguments + 1, pos) && name == Inserted(id, pos)
    ensures Separators(id) < numArguments + 1 ==> pos == -1
  {
    hide Separators;
    NoSeparators();
    var typeSize := numArguments + 1;
    var separatorIdx := 0;
    pos := |id| - 1;
    assert id[|id|..] == "";
    while pos >= 0
      invariant -1 <= pos < |id| && separatorIdx == Separators(id[pos + 1..]) < typeSize
      decreases pos
    {
      OneMore(id, pos);
      if id[pos] == '_' {
        separatorIdx := separatorIdx + 1;
        if separatorIdx == typeSize {
          EnoughSeparators(id, pos);
          return pos, Inserted(id, pos);
        }
      }
      pos := pos - 1;
    }
    assert id[0..] == id;
    name := "";
  }

  // ---------- the three routes ----------

  function Id(s: Signature): string {
    s.funcName + Suffix(Types(s))
  }

  /** The id of the signature named with "_null". */
  function NullId(s: Signature): string {
    Id(s.(funcName := s.funcName + "_null"))
  }

  /** Where the separators of a short text are. */
  lemma {:induction false} Scan(n: string)
    ensures Separators(n) > 0 <==> '_' in n
  {
    if n != "" {
      Scan(n[1..]);
      assert n == [n[0]] + n[1..];
    }
  }

  lemma TypeNames(t: TypeId)
    ensures var n := TypeToString(t); |n| > 0 && 'A' <= n[0] <= 'Z' && (IsInterval(t) <==> Separators(n) > 0)
  {
    hide Separators;
    var n := TypeToString(t);
    Scan(n);
    if t == IntervalMonths {
      assert n[8] == '_';
    } else if t == IntervalDayTime {
      assert n[8] == '_';
    }
  }

  /** One separator per type, and more exactly when there is an interval type among them. */
  lemma {:induction false} SuffixSeparators(types: seq<TypeId>)
    ensures Separators(Suffix(types)) >= |types|
    ensures Separators(Suffix(types)) == |types| <==> forall i | 0 <= i < |types| :: !IsInterval(types[i])
  {
    if types != [] {
      TypeNames(types[0]);
      SeparatorsAppend("_" + TypeToString(types[0]), Suffix(types[1..]));
      SeparatorsAppend("_", TypeToString(types[0]));
      assert Separators("_") == 1;
      SuffixSeparators(types[1..]);
      assert types == [types[0]] + types[1..];
    }
  }

  /** The scan agrees with the other two routes if and only if no type is an interval, whatever the function is
      called. */
  lemma RoutesAgree(s: Signature, pos: int)
    requires NthFromRight(Id(s), |s.paramTypes| + 1, pos)
    ensures Inserted(Id(s), pos) == NullId(s) <==> forall i | 0 <= i < |Types(s)| :: !IsInterval(Types(s)[i])
    ensures NullId(s) == s.funcName + "_null" + Suffix(Types(s))
  {
    var id, n, suffix := Id(s), |s.funcName|, Suffix(Types(s));
    SuffixSeparators(Types(s));
    TypeNames(Types(s)[0]);
    assert id[n..] == suffix && suffix[0] == '_' && suffix[1] == TypeToString(Types(s)[0])[0];
    if Separators(suffix) == |Types(s)| {
      if pos <= n {
        NthUnique(id, |s.paramTypes| + 1, pos, n);
      } else {
        NthUnique(id, |s.paramTypes| + 1, n, pos);
      }
      assert id[..n] == s.funcName;
    } else {
      if pos <= n {
        assert id[pos..] == id[pos..n] + suffix;
        SeparatorsAppend(id[pos..n], suffix);
      }
      assert pos >= n + 2;
      assert Inserted(id, pos)[n + 1] == suffix[1];
      assert NullId(s)[n + 1] == 'n';
    }
  }

  lemma TwoSeparators(a: string, b: string)
    requires '_' !in a && '_' !in b
    ensures Separators("_" + a + "_" + b) == 2
  {
    Scan(a);
    Scan(b);
    assert "_" + a + "_" + b == ("_" + a) + ("_" + b);
    SeparatorsAppend("_" + a, "_" + b);
    SeparatorsAppend("_", a);
    SeparatorsAppend("_", b);
    assert Separators("_") == 1;
  }

  /** The scan stops inside the name of an interval type: "f_Interval_month_Int32" becomes "f_Interval_null_month_Int32"
      where the other routes have "f_null_Interval_month_Int32". */
  lemma IntervalSplit()
    ensures var s := Signature("f", [IntervalMonths], Int);
      && NthFromRight(Id(s), 2, 10) && Inserted(Id(s), 10) == "f_Interval" + "_null" + "_month_Int32"
      && NullId(s) == "f" + "_null" + "_Interval_month_Int32"
  {
    hide Separators, Suffix;
    var s := Signature("f", [IntervalMonths], Int);
    IntervalSuffix();
    Split("f", "_Interval", "_month_Int32");
    TwoSeparators("month", "Int32");
    assert "_month_Int32" == "_" + "month" + "_" + "Int32";
    assert Types(s) == Types(s.(funcName := "f" + "_null")) == [IntervalMonths, Int];
  }

  lemma IntervalSuffix()
    ensures Suffix([IntervalMonths, Int]) == "_Interval" + "_month_Int32" == "_Interval_month_Int32"
  {
    hide Suffix;
    SuffixAppend([IntervalMonths], [Int]);
    OneSuffix(IntervalMonths);
    OneSuffix(Int);
    assert [IntervalMonths] + [Int] == [IntervalMonths, Int];
  }

  lemma Split(a: string, b: string, c: string)
    ensures (a + (b + c))[..|a| + |b|] == a + b && (a + (b + c))[|a| + |b|..] == c
  {
  }
}
