/**
 * `str.format` over a template given as literal chunks and named
 * `{field}` holes, the way the prompt templates are written.
 */
module Template {
  import opened Wrappers
  import opened PyText

  datatype Piece = Lit(text: string) | Hole(name: string)

  type Template = seq<Piece>

  /** The field names the template asks for. */
  function Holes(t: Template): set<string> {
    if t == [] then {}
    else (if t[0].Hole? then {t[0].name} else {}) + Holes(t[1..])
  }

  /**
   * `template.format(**args)`: the holes are filled left to right; the
   * first hole without a value raises KeyError, and unused values are ignored.
   */
  function Format(t: Template, args: map<string, string>): (r: Result<string>)
    ensures r.Ok? <==> Holes(t) <= args.Keys
    ensures r.Err? ==> r.error.KeyError? && r.error.key in Holes(t) && r.error.key !in args
  {
    if t == [] then Ok("")
    else if t[0].Hole? && t[0].name !in args then Err(KeyError(t[0].name))
    else
      var head := if t[0].Lit? then t[0].text else args[t[0].name];
      match Format(t[1..], args)
      case Ok(rest) => Ok(head + rest)
      case Err(e) => Err(e)
  }

  lemma {:induction false} HolesAppend(a: Template, b: Template)
    ensures Holes(a + b) == Holes(a) + Holes(b)
  {
    if a == [] {
      assert a + b == b;
    } else {
      assert (a + b)[1..] == a[1..] + b;
      HolesAppend(a[1..], b);
    }
  }

  lemma HolesThree(a: string, field: string, b: string)
    ensures Holes([Lit(a), Hole(field), Lit(b)]) == {field}
  {
    assert Holes([Lit(b)]) == {} by {
      assert [Lit(b)][1..] == [];
    }
    assert Holes([Hole(field), Lit(b)]) == {field} by {
      assert [Hole(field), Lit(b)][1..] == [Lit(b)];
    }
    assert [Lit(a), Hole(field), Lit(b)][1..] == [Hole(field), Lit(b)];
  }

  /** Filling a concatenation fills each part in turn. */
  lemma {:induction false} FormatAppend(a: Template, b: Template, args: map<string, string>)
    requires Holes(a + b) <= args.Keys
    ensures Holes(a) <= args.Keys && Holes(b) <= args.Keys
    ensures Format(a + b, args).value == Format(a, args).value + Format(b, args).value
  {
    HolesAppend(a, b);
    if a == [] {
      assert a + b == b;
    } else {
      assert (a + b)[1..] == a[1..] + b;
      HolesAppend(a[1..], b);
      FormatAppend(a[1..], b, args);
    }
  }

  /** What the filled head of a template contains, the whole filled template contains. */
  lemma FormatPrefixContains(a: Template, b: Template, needle: string, args: map<string, string>)
    requires Holes(a + b) <= args.Keys
    requires Holes(a) <= args.Keys && Contains(Format(a, args).value, needle)
    ensures Contains(Format(a + b, args).value, needle)
  {
    FormatAppend(a, b, args);
    var x, y := Format(a, args).value, Format(b, args).value;
    assert (x + y)[..|x|] == x;
    ContainsPrefix(x + y, |x|, needle);
  }

  /** The filled text depends on the values of the template's own holes and nothing else. */
  lemma {:induction false} FormatDependsOnHoles(t: Template, args1: map<string, string>, args2: map<string, string>)
    requires forall h :: h in Holes(t) ==> h in args1 && h in args2 && args1[h] == args2[h]
    ensures Format(t, args1) == Format(t, args2)
  {
    if t != [] {
      FormatDependsOnHoles(t[1..], args1, args2);
    }
  }

  /** A template made of sections, one after another. */
  function Flatten(sections: seq<Template>): Template {
    if sections == [] then [] else sections[0] + Flatten(sections[1..])
  }

  /** The holes of the sections, all together. */
  function SectionHoles(sections: seq<Template>): set<string> {
    if sections == [] then {} else Holes(sections[0]) + SectionHoles(sections[1..])
  }

  lemma {:induction false} HolesFlatten(sections: seq<Template>)
    ensures Holes(Flatten(sections)) == SectionHoles(sections)
  {
    if sections != [] {
      HolesAppend(sections[0], Flatten(sections[1..]));
      HolesFlatten(sections[1..]);
    }
  }

  lemma {:induction false} SectionHolesAppend(a: seq<Template>, b: seq<Template>)
    ensures SectionHoles(a + b) == SectionHoles(a) + SectionHoles(b)
  {
    if a == [] {
      assert a + b == b;
    } else {
      assert (a + b)[1..] == a[1..] + b;
      SectionHolesAppend(a[1..], b);
    }
  }

  /** No section asks for a field outside `f`, so neither do they all. */
  lemma {:induction false} SectionHolesBound(sections: seq<Template>, f: set<string>)
    requires forall k :: 0 <= k < |sections| ==> Holes(sections[k]) <= f
    ensures SectionHoles(sections) <= f
  {
    if sections != [] {
      SectionHolesBound(sections[1..], f);
    }
  }

  /** Sections in four groups ask for no field outside `f` when no group does. */
  lemma SectionHolesWithin(a: seq<Template>, b: seq<Template>, c: seq<Template>, d: seq<Template>, f: set<string>)
    requires SectionHoles(a) <= f && SectionHoles(b) <= f && SectionHoles(c) <= f && SectionHoles(d) <= f
    ensures SectionHoles(a + b + c + d) <= f
  {
    SectionHolesAppend(a, b);
    SectionHolesAppend(a + b, c);
    SectionHolesAppend(a + b + c, d);
  }

  /** Each filled section appears, as it is, inside the filled template. */
  lemma {:induction false} FormatFlattenContains(sections: seq<Template>, i: nat, args: map<string, string>)
    requires i < |sections|
    requires Holes(Flatten(sections)) <= args.Keys
    ensures Holes(sections[i]) <= args.Keys
    ensures Contains(Format(Flatten(sections), args).value, Format(sections[i], args).value)
  {
    FormatAppend(sections[0], Flatten(sections[1..]), args);
    var head := Format(sections[0], args).value;
    var tail := Format(Flatten(sections[1..]), args).value;
    if i == 0 {
      ContainsInfix("", head, tail);
      assert "" + head + tail == head + tail;
    } else {
      FormatFlattenContains(sections[1..], i - 1, args);
      ContainsWiden(head, tail, "", Format(sections[i], args).value);
      assert head + tail + "" == head + tail;
    }
  }
}
