/** fmt.Printf called with a format string and no operands, as every listing
    of zaws.go prints its discovery document. */
module Printing {
  import opened Wrappers
  import opened Aws
  import opened Names
  import opened Lld
  import opened Records

  /** The characters that may follow '%' as a flag, a width, a precision or
      an argument index; what Printf does with those is not part of this
      model. */
  const FLAG_OR_WIDTH := "#0+- *.[123456789"

  /** Every '%' that has a successor is followed by a verb or by '%'. */
  ghost predicate PlainDirectives(format: string)
  {
    forall i :: 0 <= i < |format| - 1 && format[i] == '%' ==> format[i + 1] !in FLAG_OR_WIDTH
  }

  /** The text Printf writes: "%%" is a percent sign, any other verb finds no
      operand and is written as "%!<verb>(MISSING)", a final '%' as
      "%!(NOVERB)", every other character as itself. */
  function PrintfNoOperands(format: string): string
    requires PlainDirectives(format)
  {
    if format == [] then []
    else if format[0] != '%' then
      assert PlainDirectives(format[1..]) by {
        forall i | 0 <= i < |format[1..]| - 1 && format[1..][i] == '%' ensures format[1..][i + 1] !in FLAG_OR_WIDTH {
          assert format[i + 1] == '%';
        }
      }
      [format[0]] + PrintfNoOperands(format[1..])
    else if |format| == 1 then "%!(NOVERB)"
    else
      assert PlainDirectives(format[2..]) by {
        forall i | 0 <= i < |format[2..]| - 1 && format[2..][i] == '%' ensures format[2..][i + 1] !in FLAG_OR_WIDTH {
          assert format[i + 2] == '%';
        }
      }
      if format[1] == '%' then "%" + PrintfNoOperands(format[2..])
      else MissingOperand(format[1]) + PrintfNoOperands(format[2..])
  }

  /** What Printf writes for a verb whose operand is missing. */
  function MissingOperand(verb: char): string
  {
    "%!" + [verb] + "(MISSING)"
  }

  /** A text without '%' is printed unchanged. */
  lemma {:induction false} PrintfWithoutPercent(text: string)
    requires '%' !in text
    ensures PlainDirectives(text) && PrintfNoOperands(text) == text
  {
    if text != [] {
      assert text[1..] + [] == text[1..];
      PrintfWithoutPercent(text[1..]);
    }
  }

  /** A prefix without '%' is printed unchanged in front of the rest. */
  lemma {:induction false} PrintfPrefix(prefix: string, rest: string)
    requires '%' !in prefix && PlainDirectives(prefix + rest)
    ensures PlainDirectives(rest) && PrintfNoOperands(prefix + rest) == prefix + PrintfNoOperands(rest)
    decreases |prefix|
  {
    if prefix == [] {
      assert prefix + rest == rest;
    } else {
      var c, more := prefix[0], prefix[1..];
      assert prefix == [c] + more;
      Associative([c], more, rest);
      PrintfCharacter(c, more + rest);
      PrintfPrefix(more, rest);
      Associative([c], more, PrintfNoOperands(rest));
    }
  }

  /** A character other than '%' is printed as itself. */
  lemma PrintfCharacter(c: char, text: string)
    requires c != '%' && PlainDirectives([c] + text)
    ensures PlainDirectives(text) && PrintfNoOperands([c] + text) == [c] + PrintfNoOperands(text)
  {
    assert ([c] + text)[1..] == text;
    PlainDirectivesTail([c] + text);
  }

  lemma PlainDirectivesTail(text: string)
    requires text != [] && PlainDirectives(text)
    ensures PlainDirectives(text[1..])
  {
    forall i | 0 <= i < |text[1..]| - 1 && text[1..][i] == '%' ensures text[1..][i + 1] !in FLAG_OR_WIDTH {
      assert text[i + 1] == '%';
    }
  }

  /** Putting a '%'-free text in front keeps every directive plain. */
  lemma PlainDirectivesPrefix(prefix: string, rest: string)
    requires '%' !in prefix && PlainDirectives(rest)
    ensures PlainDirectives(prefix + rest)
  {
    forall i | 0 <= i < |prefix + rest| - 1 && (prefix + rest)[i] == '%'
      ensures (prefix + rest)[i + 1] !in FLAG_OR_WIDTH
    {
      if i >= |prefix| {
        assert (prefix + rest)[i] == rest[i - |prefix|];
        assert (prefix + rest)[i + 1] == rest[i + 1 - |prefix|];
      }
    }
  }

  /** The entry ShowEc2List builds for an instance without a private
      address whose last Name tag holds the non-empty `name`. */
  function NamedEntry(id: string, instanceType: string, name: string): Data
  {
    EMPTY_DATA.(instanceName := name, instanceType := instanceType, instanceId := id)
  }

  /** An instance without a private address whose last Name tag holds a
      non-empty value has the named entry, whatever its other tags. */
  lemma NamedInstanceEntry(instance: Instance, k: int)
    requires instance.privateIpAddress.None? && LastNameTagAt(instance.tags, k) && instance.tags[k].value != ""
    ensures InstanceEntry(instance) == NamedEntry(instance.instanceId, instance.instanceType, instance.tags[k].value)
  {
    InstanceNameCases(instance);
  }

  /** The members of such an entry: name, type and id, in that order. */
  lemma NamedEntryMembers(id: string, instanceType: string, name: string)
    requires id != "" && instanceType != "" && name != ""
    ensures EncodeData(NamedEntry(id, instanceType, name)) ==
      Obj([Member(FIELD_KEYS[3], Str(name)), Member(FIELD_KEYS[4], Str(instanceType)), Member(FIELD_KEYS[5], Str(id))])
  {
    var keys, values := FIELD_KEYS, FieldValues(NamedEntry(id, instanceType, name));
    assert keys == keys[..3] + keys[3..6] + keys[6..];
    assert values == ["", "", ""] + [name, instanceType, id] + ["", "", ""];
    OmitEmptyAppend(keys[..3] + keys[3..6], keys[6..], ["", "", ""] + [name, instanceType, id], ["", "", ""]);
    OmitEmptyAppend(keys[..3], keys[3..6], ["", "", ""], [name, instanceType, id]);
    OmitEmptyNoValues(keys[..3], ["", "", ""]);
    OmitEmptyNoValues(keys[6..], ["", "", ""]);
    assert keys[3..6] == [keys[3], keys[4], keys[5]];
    OmitEmptyThree(keys[3], keys[4], keys[5], name, instanceType, id);
  }

  lemma OmitEmptyThree(k0: string, k1: string, k2: string, v0: string, v1: string, v2: string)
    requires v0 != "" && v1 != "" && v2 != ""
    ensures OmitEmpty([k0, k1, k2], [v0, v1, v2]) == [Member(k0, Str(v0)), Member(k1, Str(v1)), Member(k2, Str(v2))]
  {
    assert [k0, k1, k2][1..] == [k1, k2] && [v0, v1, v2][1..] == [v1, v2];
    assert [k1, k2][1..] == [k2] && [v1, v2][1..] == [v2];
    assert OmitEmpty([k2], [v2]) == [Member(k2, Str(v2))];
  }

  lemma RenderDocumentOfOne(key: string, element: Json)
    ensures Render(Obj([Member(key, Arr([element]))])) == "{" + Quote(key) + ":" + "[" + Render(element) + "]" + "}"
  {
    var items := [element];
    assert seq(|items|, i requires 0 <= i < |items| => Render(items[i])) == [Render(element)];
    var members := [Member(key, Arr([element]))];
    assert seq(|members|, i requires 0 <= i < |members| => Quote(members[i].key) + ":" + Render(members[i].value))
      == [Quote(key) + ":" + Render(Arr([element]))];
  }

  lemma RenderThreeMembers(m0: Member, m1: Member, m2: Member)
    ensures Render(Obj([m0, m1, m2])) ==
      "{" + (Quote(m0.key) + ":" + Render(m0.value)) + "," + (Quote(m1.key) + ":" + Render(m1.value))
          + "," + (Quote(m2.key) + ":" + Render(m2.value)) + "}"
  {
    var members := [m0, m1, m2];
    var parts := seq(|members|, i requires 0 <= i < |members| => Quote(members[i].key) + ":" + Render(members[i].value));
    assert |parts| == 3 && parts == [parts[0], parts[1], parts[2]];
    JoinThree(parts[0], parts[1], parts[2]);
  }

  lemma JoinThree(a: string, b: string, c: string)
    ensures Join([a, b, c]) == a + "," + b + "," + c
  {
    assert [a, b, c][1..] == [b, c] && [b, c][1..] == [c];
    assert Join([b, c]) == b + "," + c;
    assert Join([a, b, c]) == a + "," + (b + "," + c);
  }

  /** The text of an entry of three string members, cut inside the first value. */
  lemma ElementTextSplit(k0: string, before: string, after: string, m1: Member, m2: Member)
    requires m1.value.Str? && m2.value.Str?
    ensures Render(Obj([Member(k0, Str(before + after)), m1, m2])) ==
      ("{" + Quote(k0) + ":" + "\"" + Escape(before)) +
      (Escape(after) + ("\"" + "," + (Quote(m1.key) + ":" + Quote(m1.value.text)) + "," + (Quote(m2.key) + ":" + Quote(m2.value.text)) + "}"))
  {
    RenderThreeMembers(Member(k0, Str(before + after)), m1, m2);
    EscapeAppend(before, after);
    ElementRegroup(Quote(k0), Escape(before), Escape(after),
                   Quote(m1.key) + ":" + Quote(m1.value.text), Quote(m2.key) + ":" + Quote(m2.value.text));
  }

  lemma ElementRegroup(q0: string, before: string, after: string, y1: string, y2: string)
    ensures "{" + (q0 + ":" + ("\"" + (before + after) + "\"")) + "," + y1 + "," + y2 + "}"
      == ("{" + q0 + ":" + "\"" + before) + (after + ("\"" + "," + y1 + "," + y2 + "}"))
  {
  }

  lemma Associative(a: string, b: string, c: string)
    ensures a + (b + c) == (a + b) + c
  {
  }

  /** Concatenation regrouped around the cut. */
  lemma Regroup(a: string, p: string, x: string, t: string, z: string)
    ensures a + (p + (x + t)) + z == (a + p) + (x + (t + z))
  {
  }

  /** The text of a one-entry document, cut inside the entry's first value;
      neither side of the cut holds a '%' the keys and values do not. */
  lemma DocumentTextSplit(dataKey: string, k0: string, before: string, after: string, m1: Member, m2: Member)
    returns (prefix: string, tail: string)
    requires m1.value.Str? && m2.value.Str?
    requires '%' !in dataKey && '%' !in k0 && '%' !in before
    requires '%' !in m1.key && '%' !in m1.value.text && '%' !in m2.key && '%' !in m2.value.text
    ensures Render(Obj([Member(dataKey, Arr([Obj([Member(k0, Str(before + after)), m1, m2])]))])) == prefix + (Escape(after) + tail)
    ensures '%' !in prefix && '%' !in tail
  {
    var element := Obj([Member(k0, Str(before + after)), m1, m2]);
    RenderDocumentOfOne(dataKey, element);
    ElementTextSplit(k0, before, after, m1, m2);
    var opening := "{" + Quote(dataKey) + ":" + "[";
    var p := "{" + Quote(k0) + ":" + "\"" + Escape(before);
    var t := "\"" + "," + (Quote(m1.key) + ":" + Quote(m1.value.text)) + "," + (Quote(m2.key) + ":" + Quote(m2.value.text)) + "}";
    var x := Escape(after);
    assert Render(element) == p + (x + t);
    assert "{" + Quote(dataKey) + ":" + "[" + Render(element) + "]" + "}" == opening + (p + (x + t)) + ("]" + "}");
    Regroup(opening, p, x, t, "]" + "}");
    prefix := opening + p;
    tail := t + ("]" + "}");
    QuotePercent(dataKey);
    QuotePercent(k0);
    EscapePercent(before);
    QuotePercent(m1.key);
    QuotePercent(m1.value.text);
    QuotePercent(m2.key);
    QuotePercent(m2.value.text);
  }

  lemma QuotePercent(text: string)
    ensures '%' in Quote(text) <==> '%' in text
  {
    EscapePercent(text);
  }

  /** The text of the document listing such an entry whose name contains
      "%o": a '%'-free prefix, "%o", and a '%'-free tail. */
  lemma NamedDocumentText(id: string, instanceType: string, before: string, after: string)
    returns (prefix: string, tail: string)
    requires id != "" && instanceType != ""
    requires '%' !in id && '%' !in instanceType && '%' !in before && '%' !in after
    ensures Render(EncodeDocument([NamedEntry(id, instanceType, before + "%o" + after)])) == prefix + ("%o" + tail)
    ensures '%' !in prefix && '%' !in tail
  {
    var rest := "%o" + after;
    var name := before + rest;
    Associative(before, "%o", after);
    NamedDocument(id, instanceType, name);
    KeysWithoutPercent();
    var t;
    prefix, t := DocumentTextSplit(DATA_KEY, FIELD_KEYS[3], before, rest,
                                   Member(FIELD_KEYS[4], Str(instanceType)), Member(FIELD_KEYS[5], Str(id)));
    var x := EscapedVerbTail(after);
    tail := x + t;
    Associative("%o", x, t);
  }

  /** Escaping leaves the "%o" in front of a '%'-free text alone. */
  lemma EscapedVerbTail(after: string) returns (x: string)
    requires '%' !in after
    ensures Escape("%o" + after) == "%o" + x && x == Escape(after)
    ensures '%' !in x
  {
    EscapeAppend("%o", after);
    EscapePlain("%o");
    EscapePercent(after);
    x := Escape(after);
  }

  /** The document listing only such an entry. */
  lemma NamedDocument(id: string, instanceType: string, name: string)
    requires id != "" && instanceType != "" && name != ""
    ensures EncodeDocument([NamedEntry(id, instanceType, name)]) ==
      Obj([Member(DATA_KEY, Arr([Obj([Member(FIELD_KEYS[3], Str(name)), Member(FIELD_KEYS[4], Str(instanceType)),
                                      Member(FIELD_KEYS[5], Str(id))])]))])
  {
    var entry := NamedEntry(id, instanceType, name);
    NamedEntryMembers(id, instanceType, name);
    assert seq(1, i requires 0 <= i < 1 => EncodeData([entry][i])) == [EncodeData(entry)];
  }

  /** The keys such a document is printed with hold no '%'. */
  lemma KeysWithoutPercent()
    ensures '%' !in DATA_KEY && '%' !in FIELD_KEYS[3] && '%' !in FIELD_KEYS[4] && '%' !in FIELD_KEYS[5]
  {
  }

  /** Printf does not reproduce a text whose only '%' starts "%o". */
  lemma PercentVerbMangled(prefix: string, tail: string)
    requires '%' !in prefix && '%' !in tail
    ensures PlainDirectives(prefix + ("%o" + tail))
    ensures PrintfNoOperands(prefix + ("%o" + tail)) != prefix + ("%o" + tail)
  {
    var rest := "%o" + tail;
    PrintfVerb('o', tail);
    PlainDirectivesPrefix(prefix, rest);
    PrintfPrefix(prefix, rest);
    var out := PrintfNoOperands(rest);
    assert (prefix + out)[|prefix| + 1] == out[1] == '!';
    assert (prefix + rest)[|prefix| + 1] == rest[1] == 'o';
  }

  /** A verb followed by a '%'-free text finds no operand: it is printed as
      "%!<verb>(MISSING)" followed by that text. */
  lemma PrintfVerb(verb: char, tail: string)
    requires verb != '%' && verb !in FLAG_OR_WIDTH && '%' !in tail
    ensures PlainDirectives(['%', verb] + tail)
    ensures PrintfNoOperands(['%', verb] + tail) == MissingOperand(verb) + tail
  {
    PlainVerb(verb, tail);
    PrintfWithoutPercent(tail);
    var rest := ['%', verb] + tail;
    assert rest[0] == '%' && rest[1] == verb && rest[2..] == tail;
    PrintfDirective(rest);
  }

  lemma PlainVerb(verb: char, tail: string)
    requires verb != '%' && verb !in FLAG_OR_WIDTH && '%' !in tail
    ensures PlainDirectives(['%', verb] + tail)
  {
    PrintfWithoutPercent(tail);
    PlainDirectivesPrefix([verb], tail);
    PlainDirectivesPercent([verb] + tail);
    assert ['%', verb] + tail == "%" + ([verb] + tail);
  }

  lemma PrintfDirective(format: string)
    requires PlainDirectives(format) && |format| >= 2 && format[0] == '%' && format[1] != '%'
    ensures PlainDirectives(format[2..])
    ensures PrintfNoOperands(format) == MissingOperand(format[1]) + PrintfNoOperands(format[2..])
  {
  }

  /** A '%' put in front of a text that starts with a verb keeps every directive plain. */
  lemma PlainDirectivesPercent(text: string)
    requires text != [] && text[0] !in FLAG_OR_WIDTH && PlainDirectives(text)
    ensures PlainDirectives("%" + text)
  {
    var format := "%" + text;
    forall i | 0 <= i < |format| - 1 && format[i] == '%' ensures format[i + 1] !in FLAG_OR_WIDTH {
      if i > 0 {
        assert format[i] == text[i - 1];
      }
    }
  }

  /** As written, ShowEc2List does not print the document of an instance
      whose name contains "%o": Printf takes it for a verb without an operand
      (for the name "50%off" the output holds "50%!o(MISSING)ff"). The
      instance has no private address, its last Name tag holds the name, and
      no other text of the document holds a '%'. */
  lemma PercentInNameIsMangled(instance: Instance, k: int, before: string, after: string)
    requires instance.privateIpAddress.None? && LastNameTagAt(instance.tags, k)
    requires instance.tags[k].value == before + "%o" + after
    requires instance.instanceId != "" && instance.instanceType != ""
    requires '%' !in instance.instanceId && '%' !in instance.instanceType && '%' !in before && '%' !in after
    ensures var text := Render(EncodeDocument(InstanceEntries([instance])));
      PlainDirectives(text) && PrintfNoOperands(text) != text
  {
    NamedInstanceEntry(instance, k);
    assert InstanceEntries([instance]) == [NamedEntry(instance.instanceId, instance.instanceType, before + "%o" + after)];
    var prefix, tail := NamedDocumentText(instance.instanceId, instance.instanceType, before, after);
    PercentVerbMangled(prefix, tail);
  }
}
