/** JavaScript template literals as data: literal text interleaved with
    substitutions, either a colour slot of the settings (`${color1}`) or another
    computed value (a dimension, an identifier, a duration). Rendering a
    substitution whose value is missing writes `undefined`, as JavaScript does. */
module Templates {

  datatype Piece = Lit(text: string) | Color(key: string) | Arg(name: string)

  type Template = seq<Piece>

  /** The text a substitution `${m[k]}` produces. */
  function ValueText(m: map<string, string>, k: string): string {
    if k in m then m[k] else "undefined"
  }

  function Render(t: Template, colors: map<string, string>, args: map<string, string>): string
  {
    if t == [] then []
    else
      match t[0]
      case Lit(s) => s + Render(t[1..], colors, args)
      case Color(k) => ValueText(colors, k) + Render(t[1..], colors, args)
      case Arg(a) => ValueText(args, a) + Render(t[1..], colors, args)
  }

  /** The colour slots a template substitutes, in the order they appear. */
  function ColorSlots(t: Template): seq<string>
  {
    if t == [] then []
    else if t[0].Color? then [t[0].key] + ColorSlots(t[1..])
    else ColorSlots(t[1..])
  }

  /** The other substitutions a template makes, in the order they appear. */
  function ArgSlots(t: Template): seq<string>
  {
    if t == [] then []
    else if t[0].Arg? then [t[0].name] + ArgSlots(t[1..])
    else ArgSlots(t[1..])
  }

  lemma {:induction false} SlotsAppend(t1: Template, t2: Template)
    ensures ColorSlots(t1 + t2) == ColorSlots(t1) + ColorSlots(t2)
    ensures ArgSlots(t1 + t2) == ArgSlots(t1) + ArgSlots(t2)
  {
    if t1 == [] {
      assert t1 + t2 == t2;
    } else {
      assert (t1 + t2)[0] == t1[0] && (t1 + t2)[1..] == t1[1..] + t2;
      SlotsAppend(t1[1..], t2);
    }
  }

  /** Rendering a template piece by piece: the text of a concatenation is the
      concatenation of the texts. */
  lemma {:induction false} RenderAppend(t1: Template, t2: Template, colors: map<string, string>, args: map<string, string>)
    ensures Render(t1 + t2, colors, args) == Render(t1, colors, args) + Render(t2, colors, args)
  {
    if t1 == [] {
      assert t1 + t2 == t2;
    } else {
      assert (t1 + t2)[0] == t1[0] && (t1 + t2)[1..] == t1[1..] + t2;
      RenderAppend(t1[1..], t2, colors, args);
    }
  }

  /** A colour substitution at position `i` puts the slot's value between the
      text of what precedes and what follows it. */
  lemma {:induction false} RenderColorAt(t: Template, i: nat, colors: map<string, string>, args: map<string, string>)
    requires i < |t| && t[i].Color?
    ensures Render(t, colors, args)
         == Render(t[..i], colors, args) + ValueText(colors, t[i].key) + Render(t[i + 1..], colors, args)
  {
    assert t == t[..i] + ([t[i]] + t[i + 1..]);
    RenderAppend(t[..i], [t[i]] + t[i + 1..], colors, args);
    assert ([t[i]] + t[i + 1..])[1..] == t[i + 1..];
  }

  /** The rendered text depends on the colours only through the slots the
      template substitutes. */
  lemma {:induction false} RenderReadsOnlySlots(t: Template, c1: map<string, string>, c2: map<string, string>, args: map<string, string>)
    requires forall k :: k in ColorSlots(t) ==> ValueText(c1, k) == ValueText(c2, k)
    ensures Render(t, c1, args) == Render(t, c2, args)
  {
    if t != [] {
      assert forall k :: k in ColorSlots(t[1..]) ==> k in ColorSlots(t);
      RenderReadsOnlySlots(t[1..], c1, c2, args);
    }
  }

  /** The decimal text of a non-negative integer, as `Number.prototype.toString`
      writes it. */
  function NatText(n: nat): (r: string)
    ensures r != [] && forall i :: 0 <= i < |r| ==> '0' <= r[i] <= '9'
  {
    if n < 10 then [('0' as int + n) as char] else NatText(n / 10) + [('0' as int + n % 10) as char]
  }
}
