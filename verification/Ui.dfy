/** Values shared by the screens: optional values (JavaScript `null`/`undefined`),
    navigation calls, alerts, snackbar colours and picker entries. */
module Ui {

  datatype Option<T> = None | Some(value: T)

  /** A call on the navigation object: `navigation.goBack()`, `navigation.replace(route)`
      or `navigation.navigate(route)`. */
  datatype NavAction = GoBack | Replace(route: string) | Navigate(route: string)

  /** A call `Alert.alert(title, message)`. */
  datatype Alert = Alert(title: string, message: string)

  /** A `setTimeout` callback a form screen schedules after showing its snackbar: hide the
      snackbar, and on success also go back. */
  datatype SnackbarTimer = Hide | HideAndGoBack

  const Red: string := "red"
  const Green: string := "green"

  /** A `<Picker.Item label=... value=...>` entry (`label` is a Dafny keyword, hence `labelText`). */
  datatype PickerItem = PickerItem(labelText: string, value: string)

  /** `items.find(item => item.value === value)?.label`: the label of the first entry
      holding `value`, or `undefined` when there is none. */
  function FindLabel(items: seq<PickerItem>, value: string): (r: Option<string>)
    ensures r.None? <==> forall i :: 0 <= i < |items| ==> items[i].value != value
    ensures r.Some? ==> exists i :: 0 <= i < |items| && items[i].value == value && items[i].labelText == r.value
                                    && forall j :: 0 <= j < i ==> items[j].value != value
  {
    if items == [] then None
    else if items[0].value == value then Some(items[0].labelText)
    else
      var rest := FindLabel(items[1..], value);
      assert rest.Some? ==> exists i :: 0 <= i < |items[1..]| && items[1..][i].value == value && items[1..][i].labelText == rest.value
                                        && forall j :: 0 <= j < i ==> items[1..][j].value != value;
      rest
  }

  /** A picker button's caption: the label of the entry holding the stored value, the
      placeholder text while the value is empty, `undefined` for an unlisted value. */
  function Caption(items: seq<PickerItem>, value: string, placeholder: string): (r: Option<string>)
    ensures value == "" ==> r == Some(placeholder)
    ensures value != "" ==> (r.None? <==> forall i :: 0 <= i < |items| ==> items[i].value != value)
    ensures value != "" && r.Some? ==> exists i :: 0 <= i < |items| && items[i].value == value && items[i].labelText == r.value
  {
    if |value| > 0 then FindLabel(items, value) else Some(placeholder)
  }

  /** The total length of the parts. */
  function TotalLength(parts: seq<string>): nat {
    if parts == [] then 0 else |parts[0]| + TotalLength(parts[1..])
  }

  /** `parts.join(sep)`: the parts in order, with `sep` between neighbours. */
  function Join(parts: seq<string>, sep: string): (r: string)
    ensures parts == [] ==> r == ""
    ensures parts != [] ==> |r| == TotalLength(parts) + (|parts| - 1) * |sep|
    ensures parts != [] ==> r[..|parts[0]|] == parts[0]
    ensures |parts| >= 2 ==> r[|parts[0]|..|parts[0]| + |sep|] == sep
  {
    if parts == [] then ""
    else if |parts| == 1 then parts[0]
    else parts[0] + sep + Join(parts[1..], sep)
  }

  /** A single part is joined to itself, with no separator. */
  lemma JoinSingle(part: string, sep: string)
    ensures Join([part], sep) == part
  {
  }

  /** Joining a concatenation joins each half and puts one separator between them; with
      `JoinSingle` this fixes `Join` on every list: the parts in order, `sep` between
      neighbours. */
  lemma {:induction false} JoinAppend(p: seq<string>, q: seq<string>, sep: string)
    requires p != [] && q != []
    ensures Join(p + q, sep) == Join(p, sep) + sep + Join(q, sep)
    decreases |p|
  {
    var pq := p + q;
    assert |pq| >= 2 && pq[0] == p[0];
    if |p| == 1 {
      assert pq[1..] == q;
    } else {
      assert pq[1..] == p[1..] + q;
      calc {
        Join(pq, sep);
        p[0] + sep + Join(p[1..] + q, sep);
        { JoinAppend(p[1..], q, sep); }
        p[0] + sep + (Join(p[1..], sep) + sep + Join(q, sep));
        (p[0] + sep + Join(p[1..], sep)) + sep + Join(q, sep);
        Join(p, sep) + sep + Join(q, sep);
      }
    }
  }
}
