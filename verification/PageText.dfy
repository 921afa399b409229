/**
 Text that comes from pages, with the verdicts of the validators that judge it.

 How text is judged is not part of this model: labels, origins and paths carry the verdict as a
 flag or a constructor.
 */
module PageText {
  datatype Role = Button | Link | Textbox | Checkbox | Radio | Dialog | StatusRole | Alert | Heading | Img
                | List | ListItem | Combobox | OptionRole | Menu | MenuItem | Tab | TabPanel | Table | Row
                | Cell | Region | NavigationRole | Article | Form | Search | Switch | Group
                | OtherRole(text: string)

  predicate PortableRole(r: Role) { !r.OtherRole? }

  /**
   An accessibility label. `Reduced` text is its own reduction; `human` and `reserved` say whether
   it contains one of the words that mark consent or verification controls, or submission, e-mail
   and password controls.
   */
  datatype Label = NoLabel | Redacted | Untrusted | Unreduced(text: string)
                 | Reduced(text: string, human: bool, reserved: bool)

  predicate SafeLabel(l: Label) { !l.Unreduced? }
  predicate PromotableLabel(l: Label) { l.Reduced? }
  predicate HumanLabel(l: Label) { l.Reduced? && l.human }

  datatype Origin = Origin(text: string, exact: bool)

  /** `disclosable` is the rule for observed paths, `retainable` the stricter one for kept URLs. */
  datatype Path = Path(text: string, disclosable: bool, retainable: bool)

  const ROOT := Path("/", true, true)

  predicate Distinct<T(==)>(s: seq<T>) {
    forall i, j | 0 <= i < j < |s| :: s[i] != s[j]
  }

  function Elements<T>(s: seq<T>): set<T> { set x <- s }

  /** Lexical order of text. */
  predicate TextLe(a: string, b: string)
    decreases |a|
  {
    a == "" || (b != "" && (a[0] < b[0] || (a[0] == b[0] && TextLe(a[1..], b[1..]))))
  }
}
