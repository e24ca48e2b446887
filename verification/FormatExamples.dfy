// The texts that two of the codecs write for a small call, spelled out.
module FormatExamples {
  import opened JsonCodecs
  import G = Gemma4
  import M = MinimaxXml
  import MC = MinimaxCalls

  lemma {:induction false} MinimaxTags()
    ensures M.OpenTag(MC.TOOL_CALL) == [M.Ns] + Lifted("<tool_call>")
    ensures M.CloseTag(MC.TOOL_CALL) == [M.Ns] + Lifted("</tool_call>")
    ensures M.CloseTag(MC.INVOKE) == [M.Ns] + Lifted("</invoke>")
  {
  }

  lemma {:induction false} MinimaxMoreTags()
    ensures M.OpenTag(M.ITEM) == [M.Ns] + Lifted("<item>")
    ensures M.CloseTag(M.ITEM) == [M.Ns] + Lifted("</item>")
    ensures M.OpenTag(Lifted("to")) == [M.Ns] + Lifted("<to>")
    ensures M.CloseTag(Lifted("to")) == [M.Ns] + Lifted("</to>")
  {
  }

  lemma {:induction false} MinimaxHeader()
    ensures MC.InvokeTail(Lifted("mail")) == Lifted("<invoke name=\"mail\">")
    ensures MC.NEWLINE == Lifted("\n")
  {
  }

  // mail(to = ["a", None], cc = None)
  lemma {:induction false} MinimaxExample(j: M.Json)
    ensures var list := M.Arr([M.Str(Lifted("a")), M.Null]);
      MC.FormatToolCalls(j, [MC.Call(Lifted("mail"), [M.Field(Lifted("to"), list), M.Field(Lifted("cc"), M.Null)])]) ==
        [M.Ns] + Lifted("<tool_call>") + (Lifted("\n")
        + ([M.Ns] + Lifted("<invoke name=\"mail\">")
        + ([M.Ns] + Lifted("<to>")
        + ([M.Ns] + Lifted("<item>") + Lifted("a") + ([M.Ns] + Lifted("</item>"))
        + ([M.Ns] + Lifted("<item>") + ([M.Ns] + Lifted("</item>"))))
        + ([M.Ns] + Lifted("</to>")))
        + ([M.Ns] + Lifted("</invoke>")))
        + Lifted("\n")) + ([M.Ns] + Lifted("</tool_call>"))
  {
    MinimaxTags();
    MinimaxMoreTags();
    MinimaxHeader();
    hide Lifted, M.OpenTag, M.CloseTag, MC.InvokeTail, MC.NEWLINE, MC.TOOL_CALL, MC.INVOKE, M.ITEM;
    var a, none := M.Str(Lifted("a")), M.Field(Lifted("cc"), M.Null);
    var to := M.Field(Lifted("to"), M.Arr([a, M.Null]));
    var call := MC.Call(Lifted("mail"), [to, none]);
    MinimaxItems(j, a);
    assert [to, none][1..] == [none] && [none][1..] == [] && [call][1..] == [];
    assert M.FieldsToXml(j, []) == [];
    assert M.FieldsToXml(j, [none]) == [] + [] == [];
    var fields := M.OpenTag(to.key) + M.ItemsToXml(j, [a, M.Null]) + M.CloseTag(to.key);
    assert M.FieldsToXml(j, [to, none]) == fields + [] == fields;
    assert MC.Invocations(j, [call]) == [MC.Invocation(j, call)] + [];
    assert MC.JoinLines([MC.Invocation(j, call)]) == MC.Invocation(j, call);
  }

  lemma {:induction false} MinimaxItems(j: M.Json, a: M.Value)
    ensures M.ItemsToXml(j, [a, M.Null]) ==
      M.OpenTag(M.ITEM) + M.ToXml(j, a) + M.CloseTag(M.ITEM) + (M.OpenTag(M.ITEM) + M.CloseTag(M.ITEM))
  {
    hide M.OpenTag, M.CloseTag, M.ITEM;
    var open, close := M.OpenTag(M.ITEM), M.CloseTag(M.ITEM);
    assert [a, M.Null][1..] == [M.Null] && [M.Null][1..] == [];
    assert M.ItemsToXml(j, []) == [];
    assert M.ItemsToXml(j, [M.Null]) == open + [] + close + [] == open + close;
  }

  lemma {:induction false} GemmaFields(ids: G.Value, now: G.Value, to: G.Value)
    requires ids == G.Arr([G.Num("1"), G.Null, G.Bool(false)]) && now == G.Bool(true) && to == G.Str("a")
    ensures G.Format(G.DSL, ids) == "[" + ("1" + "," + ("null" + "," + "false")) + "]"
    ensures G.Format(G.DSL, now) == "true" && G.Format(G.DSL, to) == "<|\"|>" + "a" + "<|\"|>"
  {
    var items, q := [G.Num("1"), G.Null, G.Bool(false)], G.DSL;
    var (b, c) := ([G.Null, G.Bool(false)], [G.Bool(false)]);
    assert items[1..] == b && b[1..] == c && c[1..] == [];
    assert G.FormatItems(q, c) == ["false"] + G.FormatItems(q, []) == ["false"];
    assert G.FormatItems(q, b) == ["null"] + ["false"];
    assert G.FormatItems(q, items) == ["1"] + (["null"] + ["false"]);
    assert (["1"] + (["null"] + ["false"]))[1..] == ["null"] + ["false"] && (["null"] + ["false"])[1..] == ["false"];
  }

  lemma {:induction false} GemmaSorted(ids: string, now: string, to: string)
    ensures G.SortKeys([G.Pair("to", to), G.Pair("ids", ids), G.Pair("now", now)]) ==
      [G.Pair("ids", ids), G.Pair("now", now), G.Pair("to", to)]
  {
    var t, i, n := G.Pair("to", to), G.Pair("ids", ids), G.Pair("now", now);
    assert [t, i, n][1..] == [i, n] && [i, n][1..] == [n] && [n][1..] == [];
    assert !G.AtMost("to", "ids") && !G.AtMost("to", "now") && G.AtMost("ids", "now");
    assert G.SortKeys([n]) == [n];
    assert G.SortKeys([i, n]) == [i, n];
    assert G.InsertKey(t, [n]) == [n] + G.InsertKey(t, []) == [n, t];
    assert G.InsertKey(t, [i, n]) == [i] + G.InsertKey(t, [n]);
  }

  // mail({"to": "a", "ids": [1, None, False], "now": True})
  lemma {:induction false} GemmaExample()
    ensures var (ids, now, to) := (G.Arr([G.Num("1"), G.Null, G.Bool(false)]), G.Bool(true), G.Str("a"));
      G.FormatToolCalls([G.Call("mail", G.Dict([G.Pair("to", to), G.Pair("ids", ids), G.Pair("now", now)]))]) ==
        "<|tool_call>call:" + "mail" + "{" + (("ids" + ":" + ("[" + ("1" + "," + ("null" + "," + "false")) + "]")) + "," +
        (("now" + ":" + "true") + "," + ("to" + ":" + ("<|\"|>" + "a" + "<|\"|>")))) + "}<tool_call|>"
  {
    var (ids, now, to) := (G.Arr([G.Num("1"), G.Null, G.Bool(false)]), G.Bool(true), G.Str("a"));
    GemmaFields(ids, now, to);
    var (x, y, z) := (G.Format(G.DSL, ids), G.Format(G.DSL, now), G.Format(G.DSL, to));
    GemmaSorted(x, y, z);
    var fields := [G.Pair("to", to), G.Pair("ids", ids), G.Pair("now", now)];
    GemmaPairs(fields);
    var sorted := [G.Pair("ids", x), G.Pair("now", y), G.Pair("to", z)];
    assert sorted[1..] == [sorted[1], sorted[2]] && sorted[1..][1..] == [sorted[2]] && sorted[1..][1..][1..] == [];
    hide G.Format, G.SortKeys;
    var (a, b, c) := ("ids" + ":" + x, "now" + ":" + y, "to" + ":" + z);
    assert G.Entries(G.DSL, [sorted[2]]) == [c] + [];
    assert G.Entries(G.DSL, sorted[1..]) == [b] + [c];
    assert G.Entries(G.DSL, sorted) == [a] + ([b] + [c]);
    assert ([a] + ([b] + [c]))[1..] == [b] + [c] && ([b] + [c])[1..] == [c];
    assert G.Join([b] + [c]) == b + "," + G.Join([c]);
    var call := G.Call("mail", G.Dict(fields));
    assert [call][1..] == [];
    assert G.FormatToolCalls([call]) == G.FormatCall(call) + "";
  }

  lemma {:induction false} GemmaPairs(fields: seq<G.Pair<G.Value>>)
    requires |fields| == 3
    ensures G.FormatFields(G.DSL, fields) ==
      [G.Pair(fields[0].key, G.Format(G.DSL, fields[0].value)), G.Pair(fields[1].key, G.Format(G.DSL, fields[1].value)),
       G.Pair(fields[2].key, G.Format(G.DSL, fields[2].value))]
  {
    hide G.Format;
    var (b, c) := ([fields[1], fields[2]], [fields[2]]);
    assert fields[1..] == b && b[1..] == c && c[1..] == [];
    assert G.FormatFields(G.DSL, c) == [G.Pair(fields[2].key, G.Format(G.DSL, fields[2].value))] + G.FormatFields(G.DSL, []);
    assert G.FormatFields(G.DSL, b) == [G.Pair(fields[1].key, G.Format(G.DSL, fields[1].value))] + G.FormatFields(G.DSL, c);
  }
}
