/** The two shapes a choice option takes in the form controls: a bare string, or a value with a label. */
module ChoiceOptions {

  datatype ChoiceOption = Plain(text: string) | Labeled(value: string, caption: string)

  /** `typeof opt === "string" ? opt : opt.value`. */
  function ValueOf(opt: ChoiceOption): string {
    match opt
    case Plain(t) => t
    case Labeled(v, _) => v
  }

  /** `typeof opt === "string" ? opt : opt.label`. */
  function LabelOf(opt: ChoiceOption): string {
    match opt
    case Plain(t) => t
    case Labeled(_, l) => l
  }

  /** `options.map(ValueOf)`. */
  function Values(options: seq<ChoiceOption>): (r: seq<string>)
    ensures |r| == |options|
    ensures forall i :: 0 <= i < |r| ==> r[i] == ValueOf(options[i])
  {
    seq(|options|, i requires 0 <= i < |options| => ValueOf(options[i]))
  }

  /** A value belongs to the options exactly when some option carries it. */
  lemma ValuesMembership(options: seq<ChoiceOption>, v: string)
    ensures v in Values(options) <==> exists i :: 0 <= i < |options| && ValueOf(options[i]) == v
  {
    var vs := Values(options);
    if v in vs {
      var i :| 0 <= i < |vs| && vs[i] == v;
      assert ValueOf(options[i]) == v;
    }
  }
}
