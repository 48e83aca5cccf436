/** py/recipes.py's flag: what a recipe's engine arguments say of a flag. */
module Flags {
  import opened Prelude
  import opened ClusterPlan

  /** None, True for a flag without a value, or the value. */
  datatype Flagged = Absent | Bare | Value(value: string)

  /** The value written apart after argument i: none when what follows starts with a dash, or nothing does. */
  function Apart(args: seq<string>, i: nat): Flagged
    requires i < |args|
  {
    if i + 1 < |args| && !("-" <= args[i + 1]) then Value(args[i + 1]) else Bare
  }

  /** a.split("=", 1)[1]. */
  function AfterEquals(a: string): string {
    if |BeforeEquals(a)| < |a| then a[|BeforeEquals(a)| + 1..] else ""
  }

  predicate Sets(a: string, name: string) { a == name || name + "=" <= a }

  /** What argument i says, the last of the names it sets winning. */
  function Says(args: seq<string>, i: nat, names: seq<string>): Option<Flagged>
    requires i < |args|
  {
    if names == [] then None
    else
      var name := names[|names| - 1];
      if args[i] == name then Some(Apart(args, i))
      else if name + "=" <= args[i] then Some(Value(AfterEquals(args[i])))
      else Says(args, i, names[..|names| - 1])
  }

  /** What the first n arguments say, the last winning. */
  function Latest(args: seq<string>, names: seq<string>, n: nat): Flagged
    requires n <= |args|
  {
    if n == 0 then Absent
    else if Says(args, n - 1, names).Some? then Says(args, n - 1, names).value
    else Latest(args, names, n - 1)
  }

  method Flag(args: seq<string>, names: seq<string>) returns (val: Flagged)
    ensures val == Latest(args, names, |args|)
  {
    val := Absent;
    for i := 0 to |args|
      invariant val == Latest(args, names, i)
    {
      var a := args[i];
      ghost var before := val;
      for k := 0 to |names|
        invariant val == (if Says(args, i, names[..k]).Some? then Says(args, i, names[..k]).value else before)
      {
        var name := names[k];
        assert names[..k + 1][..k] == names[..k];
        if a == name {
          var next := if i + 1 < |args| then Some(args[i + 1]) else None;
          val := if next.Some? && !("-" <= next.value) then Value(next.value) else Bare;
        } else if name + "=" <= a {
          val := Value(AfterEquals(a));
        }
      }
      assert names[..|names|] == names;
    }
  }

  lemma {:induction false} EqualsAt(a: string, name: string)
    requires name + "=" <= a && '=' !in name
    ensures BeforeEquals(a) == name && a == name + "=" + AfterEquals(a)
  {
    if name == "" {
      assert a[0] == '=';
    } else {
      EqualsTail(a, name);
      EqualsAt(a[1..], name[1..]);
    }
  }

  lemma EqualsTail(a: string, name: string)
    requires name != "" && name + "=" <= a && '=' !in name
    ensures a[0] == name[0] != '=' && name[1..] + "=" <= a[1..] && '=' !in name[1..]
    ensures name == [name[0]] + name[1..] && a == [a[0]] + a[1..]
  {
    var whole := name + "=";
    assert a[0] == whole[0] && name[0] in name;
    assert whole[1..] == name[1..] + "=" && whole[1..] <= a[1..];
  }

  lemma {:induction false} SetsSays(args: seq<string>, i: nat, names: seq<string>)
    requires i < |args|
    ensures Says(args, i, names).Some? <==> exists k :: 0 <= k < |names| && Sets(args[i], names[k])
  {
    if names != [] {
      var init := names[..|names| - 1];
      SetsSays(args, i, init);
      assert forall k :: 0 <= k < |init| ==> init[k] == names[k];
      assert Sets(args[i], names[|names| - 1]) || !Sets(args[i], names[|names| - 1]);
    }
  }

  /** The last argument that sets one of the names says its value; with none, the flag is absent. */
  lemma {:induction false} LastOneWins(args: seq<string>, names: seq<string>, n: nat, i: nat)
    requires i < n <= |args| && Says(args, i, names).Some? && forall j :: i < j < n ==> Says(args, j, names) == None
    ensures Latest(args, names, n) == Says(args, i, names).value
  {
    if i < n - 1 {
      assert Says(args, n - 1, names) == None;
      LastOneWins(args, names, n - 1, i);
    }
  }

  /** What an argument says, of the last of the names that it sets: what follows the name and its equals sign; or, when
      it is the name, the next argument unless there is none or it is a flag. */
  lemma {:induction false} SaysWhat(args: seq<string>, i: nat, names: seq<string>, k: nat)
    requires i < |args| && k < |names| && Sets(args[i], names[k]) && '=' !in names[k]
    requires forall j :: k < j < |names| ==> !Sets(args[i], names[j])
    ensures Says(args, i, names).Some?
    ensures var said := Says(args, i, names).value;
            && (args[i] != names[k] ==> said.Value? && args[i] == names[k] + "=" + said.value)
            && (args[i] == names[k] && i + 1 < |args| && (args[i + 1] == "" || args[i + 1][0] != '-') ==>
                  said == Value(args[i + 1]))
            && (args[i] == names[k] && (i + 1 == |args| || (args[i + 1] != "" && args[i + 1][0] == '-')) ==>
                  said == Bare)
  {
    if k < |names| - 1 {
      assert !Sets(args[i], names[|names| - 1]);
      SaysWhat(args, i, names[..|names| - 1], k);
    } else if args[i] != names[k] {
      EqualsAt(args[i], names[k]);
    }
  }

  lemma {:induction false} AbsentWhen(args: seq<string>, names: seq<string>, n: nat)
    requires n <= |args| && forall j :: 0 <= j < n ==> Says(args, j, names) == None
    ensures Latest(args, names, n) == Absent
  {
    if n > 0 {
      AbsentWhen(args, names, n - 1);
    }
  }

  lemma OwnedPlain(flag: string)
    requires flag in OWNED_WITH_VALUE
    ensures '=' !in flag
  {
  }

  /** Once the launcher has stripped its own flags, no argument says anything of them. */
  lemma StrippedSaysNothing(args: seq<string>, flag: string)
    requires flag in OWNED_WITH_VALUE
    ensures Latest(Stripped(args), [flag], |Stripped(args)|) == Absent
  {
    var out := Stripped(args);
    NoneOwned(args);
    OwnedPlain(flag);
    hide OWNED_WITH_VALUE, Stripped;
    forall j | 0 <= j < |out|
      ensures Says(out, j, [flag]) == None
    {
      SetsSays(out, j, [flag]);
      if out[j] == flag {
        assert false;
      } else if flag + "=" <= out[j] {
        EqualsAt(out[j], flag);
        assert false;
      }
    }
    AbsentWhen(out, [flag], |out|);
  }
}
