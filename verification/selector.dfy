/**
 * The selector builder `generar_selector_html` of utils.py: the registry items,
 * sorted by display name, become `<option>` tags appended to one of two
 * accumulators (Brasil, or España for every other country), which are then
 * spliced into a fixed template with two `<optgroup>`s.
 */
module Selector {
  import opened Names
  import opened Registry
  import opened Sorting

  /** The two option groups of the page; every country but "Brasil" falls in España. */
  datatype Optgroup = Brasil | Espana

  function GroupOf(e: Entry): Optgroup
  {
    if e.info.pais == "Brasil" then Brasil else Espana
  }

  /** The items of `s` that go to group `g`, in the order of `s`. */
  function Group(s: seq<Entry>, g: Optgroup): seq<Entry>
  {
    if |s| == 0 then []
    else (if GroupOf(s[0]) == g then [s[0]] else []) + Group(s[1..], g)
  }

  lemma {:induction false} GroupMember(s: seq<Entry>, g: Optgroup, x: Entry)
    ensures x in Group(s, g) <==> x in s && GroupOf(x) == g
  {
    if |s| > 0 {
      GroupMember(s[1..], g, x);
      assert s == [s[0]] + s[1..];
    }
  }

  lemma {:induction false} GroupAppend(s: seq<Entry>, x: Entry, g: Optgroup)
    ensures Group(s + [x], g) == Group(s, g) + (if GroupOf(x) == g then [x] else [])
  {
    if |s| > 0 {
      assert (s + [x])[1..] == s[1..] + [x];
      GroupAppend(s[1..], x, g);
    }
  }

  /** The two groups split the items between them: each item lands in exactly one. */
  lemma {:induction false} GroupsPartition(s: seq<Entry>)
    ensures multiset(Group(s, Brasil)) + multiset(Group(s, Espana)) == multiset(s)
  {
    if |s| > 0 {
      GroupsPartition(s[1..]);
      assert s == [s[0]] + s[1..];
    }
  }

  /** `f'<option value="{id_p}">{info["nombre"]}</option>'`; nothing is escaped. */
  function OptionTag(e: Entry): string
  {
    "<option value=\"" + e.id + "\">" + e.info.nombre + "</option>"
  }

  /**
   * Without escaping, the tag still determines the item's id and name as long as
   * the id holds no double quote: the first quote after the prefix ends the id.
   */
  lemma OptionTagDecodes(a: Entry, b: Entry)
    requires '"' !in a.id && '"' !in b.id
    requires OptionTag(a) == OptionTag(b)
    ensures a.id == b.id && a.info.nombre == b.info.nombre
  {
    OptionTagLayout(a);
    OptionTagLayout(b);
    var t := OptionTag(a);
    if |a.id| != |b.id| {
      assert false;
    }
    assert forall i :: 0 <= i < |a.id| ==> a.id[i] == t[15 + i] == b.id[i];
    assert forall i :: 0 <= i < |a.info.nombre| ==> a.info.nombre[i] == t[17 + |a.id| + i] == b.info.nombre[i];
  }

  /** Where the id and the name sit in a tag: after the 15-character prefix, and after the id's closing `">`. */
  lemma OptionTagLayout(e: Entry)
    ensures var t := OptionTag(e);
      && |t| == 26 + |e.id| + |e.info.nombre|
      && (forall i :: 0 <= i < |e.id| ==> t[15 + i] == e.id[i])
      && t[15 + |e.id|] == '"'
      && (forall i :: 0 <= i < |e.info.nombre| ==> t[17 + |e.id| + i] == e.info.nombre[i])
  {
    var p := "<option value=\"";
    var q := "\">";
    var r := "</option>";
    assert OptionTag(e) == p + e.id + q + e.info.nombre + r;
    assert |p| == 15 && |q| == 2 && |r| == 9;
  }

  /** A double quote in an id is not escaped, so two different items can print the same tag. */
  lemma OptionTagUnescaped()
    ensures OptionTag(Entry("a\">b", Beach(0.0, 0.0, "c", "Brasil")))
         == OptionTag(Entry("a", Beach(0.0, 0.0, "b\">c", "Brasil")))
  {
  }

  /** The option tags of the items of `s`, concatenated in order. */
  function Options(s: seq<Entry>): string
  {
    if |s| == 0 then "" else OptionTag(s[0]) + Options(s[1..])
  }

  lemma {:induction false} OptionsAppend(s: seq<Entry>, x: Entry)
    ensures Options(s + [x]) == Options(s) + OptionTag(x)
  {
    if |s| > 0 {
      assert (s + [x])[1..] == s[1..] + [x];
      OptionsAppend(s[1..], x);
    }
  }

  /** The returned f-string, with `brasil` and `espana` in their places. */
  function Template(brasil: string, espana: string): string
  {
    "\n        <optgroup label=\"Brasil\">\n            " + brasil
    + "\n        </optgroup>\n        <optgroup label=\"España\">\n            " + espana
    + "\n        </optgroup>\n    "
  }

  /** What the builder returns: the options of the sorted items, group by group. */
  function SelectorHtml(reg: seq<Entry>): string
  {
    var sorted := SortByName(reg);
    Template(Options(Group(sorted, Brasil)), Options(Group(sorted, Espana)))
  }

  /** The loop of `generar_selector_html` over the sorted items, with its two accumulators. */
  method BuildSelector(reg: seq<Entry>) returns (html: string)
    ensures html == SelectorHtml(reg)
  {
    var sorted := SortByName(reg);
    var brasil := "";
    var espana := "";
    for i := 0 to |sorted|
      invariant brasil == Options(Group(sorted[..i], Brasil))
      invariant espana == Options(Group(sorted[..i], Espana))
    {
      var option := OptionTag(sorted[i]);
      assert sorted[..i + 1] == sorted[..i] + [sorted[i]];
      GroupAppend(sorted[..i], sorted[i], Brasil);
      GroupAppend(sorted[..i], sorted[i], Espana);
      if sorted[i].info.pais == "Brasil" {
        OptionsAppend(Group(sorted[..i], Brasil), sorted[i]);
        brasil := brasil + option;
        assert Group(sorted[..i + 1], Espana) == Group(sorted[..i], Espana);
      } else {
        OptionsAppend(Group(sorted[..i], Espana), sorted[i]);
        espana := espana + option;
        assert Group(sorted[..i + 1], Brasil) == Group(sorted[..i], Brasil);
      }
    }
    assert sorted[..|sorted|] == sorted;
    html := Template(brasil, espana);
  }

  lemma {:induction false} InsertGroup(e: Entry, t: seq<Entry>, g: Optgroup)
    requires Sorted(t)
    ensures Group(Insert(e, t), g) == if GroupOf(e) == g then Insert(e, Group(t, g)) else Group(t, g)
  {
    if |t| == 0 {
    } else if NameLe(e.info.nombre, t[0].info.nombre) {
      assert ([e] + t)[1..] == t;
      var u := Group(t, g);
      if GroupOf(e) == g && |u| > 0 {
        GroupMember(t, g, u[0]);
        var j :| 0 <= j < |t| && t[j] == u[0];
        if j > 0 {
          NameLeTransitive(e.info.nombre, t[0].info.nombre, t[j].info.nombre);
        }
      }
    } else {
      var rest := Insert(e, t[1..]);
      assert ([t[0]] + rest)[1..] == rest;
      assert Sorted(t[1..]) by {
        forall i, j | 0 <= i < j < |t[1..]|
          ensures NameLe(t[1..][i].info.nombre, t[1..][j].info.nombre)
        {
          assert t[1..][i] == t[i + 1] && t[1..][j] == t[j + 1];
        }
      }
      InsertGroup(e, t[1..], g);
      if GroupOf(t[0]) == g {
        var u := Group(t, g);
        assert u == [t[0]] + Group(t[1..], g);
        assert u[1..] == Group(t[1..], g);
        assert Insert(e, u) == [t[0]] + Insert(e, Group(t[1..], g));
      } else {
        assert Group(t, g) == Group(t[1..], g);
        assert Group(Insert(e, t), g) == Group(rest, g);
      }
    }
  }

  /** Sorting and then splitting into groups is splitting and then sorting each group. */
  lemma {:induction false} GroupOfSorted(s: seq<Entry>, g: Optgroup)
    ensures Group(SortByName(s), g) == SortByName(Group(s, g))
  {
    if |s| > 0 {
      GroupOfSorted(s[1..], g);
      SortByNameSorted(s[1..]);
      InsertGroup(s[0], SortByName(s[1..]), g);
      if GroupOf(s[0]) == g {
        var u := Group(s, g);
        assert u == [s[0]] + Group(s[1..], g);
        assert u[1..] == Group(s[1..], g);
        assert SortByName(u) == Insert(s[0], SortByName(Group(s[1..], g)));
      } else {
        assert Group(s, g) == Group(s[1..], g);
      }
    }
  }

  /**
   * Each group of the page lists exactly the items of its country (every
   * non-Brasil country under España), in non-decreasing order of name, items of
   * equal name in registry order.
   */
  lemma SelectorGroups(reg: seq<Entry>, g: Optgroup)
    ensures var shown := Group(SortByName(reg), g);
      && (forall x :: x in shown <==> x in reg && (x.info.pais == "Brasil" <==> g == Brasil))
      && multiset(shown) == multiset(Group(reg, g))
      && Sorted(shown)
      && (forall k :: WithName(shown, k) == WithName(Group(reg, g), k))
  {
    var shown := Group(SortByName(reg), g);
    GroupOfSorted(reg, g);
    SortByNameSorted(Group(reg, g));
    SortByNamePermutes(Group(reg, g));
    forall k
      ensures WithName(shown, k) == WithName(Group(reg, g), k)
    {
      SortByNameStable(Group(reg, g), k);
    }
    forall x
      ensures x in shown <==> x in reg && (x.info.pais == "Brasil" <==> g == Brasil)
    {
      GroupMember(reg, g, x);
      assert x in shown <==> x in multiset(Group(reg, g));
    }
  }

  /** An empty registry still gives both groups, Brasil first, with nothing in them. */
  lemma EmptyRegistry()
    ensures SelectorHtml([]) == Template("", "")
  {
  }
}
