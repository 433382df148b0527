/**
 * The label lookup of `src/utils/KvUtil.ts`: given a list of `{value, label}`
 * options, the label of the first option whose value is the given one, or a
 * fixed fallback label when no option has it.
 */
module KvUtil {

  /** One `{value, label}` entry of an options list; `text` is its `label` (a keyword in Dafny). */
  datatype KvOption<T> = KvOption(value: T, text: string)

  /** The label returned when no option matches. */
  const NotFoundLabel := "未找到匹配值"

  /**
   * `options.find(option => option.value === value)`, as the index of the
   * option found, or `|options|` when `find` finds none.
   */
  function FindIndex<T(==)>(options: seq<KvOption<T>>, value: T): (i: nat)
    ensures i <= |options|
    ensures i < |options| ==> options[i].value == value
    ensures forall j :: 0 <= j < i ==> options[j].value != value
  {
    if options == [] then 0
    else if options[0].value == value then 0
    else 1 + FindIndex(options[1..], value)
  }

  /**
   * `getLabelByValue`: the label of the first option with the given value;
   * the fallback label when there is none, in particular for no options.
   */
  function GetLabelByValue<T(==)>(value: T, options: seq<KvOption<T>>): (result: string)
    ensures (exists i :: 0 <= i < |options| && options[i].value == value) ==>
      exists i :: 0 <= i < |options| && options[i].value == value && result == options[i].text
        && forall j :: 0 <= j < i ==> options[j].value != value
    ensures (forall i :: 0 <= i < |options| ==> options[i].value != value) ==> result == NotFoundLabel
    ensures options == [] ==> result == NotFoundLabel
  {
    var i := FindIndex(options, value);
    if i < |options| then options[i].text else NotFoundLabel
  }

  /**
   * Only the first match counts: options after it do not change the label,
   * and options before it that do not match are skipped.
   */
  lemma {:induction false} LabelOfConcatenation<T>(value: T, front: seq<KvOption<T>>, back: seq<KvOption<T>>)
    ensures FindIndex(front, value) < |front| ==>
      GetLabelByValue(value, front + back) == GetLabelByValue(value, front)
    ensures FindIndex(front, value) == |front| ==>
      GetLabelByValue(value, front + back) == GetLabelByValue(value, back)
  {
    FindIndexOfConcatenation(front, back, value);
  }

  lemma {:induction false} FindIndexOfConcatenation<T>(front: seq<KvOption<T>>, back: seq<KvOption<T>>, value: T)
    ensures FindIndex(front + back, value)
         == if FindIndex(front, value) < |front| then FindIndex(front, value) else |front| + FindIndex(back, value)
  {
    if front == [] {
      assert front + back == back;
    } else {
      assert (front + back)[1..] == front[1..] + back;
      FindIndexOfConcatenation(front[1..], back, value);
    }
  }
}
