/**
 * Message templates with named placeholders, as Python's `str.format(**vars)`
 * treats them when every replacement field is a plain `{name}`.
 */
module Templates {
  import opened Wrappers

  /** One token of a template: literal text, or a `{name}` placeholder. */
  datatype Piece = Literal(text: string) | Field(name: string)

  type Template = seq<Piece>

  /** The placeholder names a template uses. */
  function FieldNames(t: Template): (names: set<string>)
    ensures forall i :: 0 <= i < |t| && t[i].Field? ==> t[i].name in names
    ensures forall n :: n in names ==> exists i :: 0 <= i < |t| && t[i] == Field(n)
  {
    set i | 0 <= i < |t| && t[i].Field? :: t[i].name
  }

  /** `template.format(**vars)`: `None` stands for the `KeyError` raised when a
    * placeholder names a variable that `vars` does not hold. */
  function Render(t: Template, vars: map<string, string>): Option<string> {
    if t == [] then Some([])
    else
      var rest := Render(t[1..], vars);
      match t[0]
      case Literal(s) => if rest.Some? then Some(s + rest.value) else None
      case Field(n) =>
        if n in vars && rest.Some? then Some(vars[n] + rest.value) else None
  }

  /** Rendering succeeds exactly when every placeholder names a variable. */
  lemma {:induction false} RenderSucceedsIffAllKnown(t: Template, vars: map<string, string>)
    ensures Render(t, vars).Some? <==> FieldNames(t) <= vars.Keys
  {
    if t != [] {
      RenderSucceedsIffAllKnown(t[1..], vars);
      assert FieldNames(t) == FieldNames(t[..1]) + FieldNames(t[1..]) by {
        assert t == t[..1] + t[1..];
      }
    }
  }

  /** Rendering a concatenation renders each half and concatenates the
    * results; it fails when either half fails. */
  lemma {:induction false} RenderConcat(t1: Template, t2: Template, vars: map<string, string>)
    ensures Render(t1 + t2, vars) ==
      if Render(t1, vars).Some? && Render(t2, vars).Some?
      then Some(Render(t1, vars).value + Render(t2, vars).value)
      else None
  {
    if t1 == [] {
      assert t1 + t2 == t2;
      var b := Render(t2, vars);
      if b.Some? { assert [] + b.value == b.value; }
    } else {
      assert (t1 + t2)[0] == t1[0] && (t1 + t2)[1..] == t1[1..] + t2;
      RenderConcat(t1[1..], t2, vars);
      var a, b := Render(t1[1..], vars), Render(t2, vars);
      if a.Some? && b.Some? {
        var head := match t1[0] case Literal(s) => s case Field(n) => if n in vars then vars[n] else "";
        assert head + (a.value + b.value) == (head + a.value) + b.value;
      }
    }
  }

  /** A template made only of literal text renders to that text whatever the
    * variables are. */
  lemma {:induction false} RenderLiteralsOnly(t: Template, vars: map<string, string>)
    requires forall i :: 0 <= i < |t| ==> t[i].Literal?
    ensures Render(t, vars) == Render(t, map[])
  {
    if t != [] {
      RenderLiteralsOnly(t[1..], vars);
    }
  }
}
