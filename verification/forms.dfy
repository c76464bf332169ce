/**
 * `arrayToDict`, which turns the controls of the login form into a plain
 * key/value mapping, and the way the submit handler reads a field of it.
 */
module Forms {
  import opened Wrappers

  /** A form control seen through its own string properties (`name`, `value`, ...); a missing one is undefined. */
  type Element = map<string, string>

  /** The submitted form data: field name to value, where the value may be undefined. */
  type FormData = map<string, Option<string>>

  /** The key an element contributes, when its key property is truthy (present and non-empty). */
  function KeyOf(x: Element, key: string): Option<string>
  {
    if key in x && x[key] != "" then Some(x[key]) else None
  }

  /** The value an element contributes: its value property, or undefined. */
  function ValueOf(x: Element, value: string): Option<string>
  {
    if value in x then Some(x[value]) else None
  }

  /**
   * arrayToDict: keep the elements whose key property is truthy, pair each key with
   * its value property and build an object from the pairs in order, so a later
   * duplicate key overrides an earlier one.
   */
  function ArrayToDict(xs: seq<Element>, key: string, value: string): (d: FormData)
    ensures |d| <= |xs|
  {
    if xs == [] then map[]
    else
      var d := ArrayToDict(xs[..|xs| - 1], key, value);
      var last := xs[|xs| - 1];
      match KeyOf(last, key)
      case None => d
      case Some(k) => d[k := ValueOf(last, value)]
  }

  /** i is the last position of xs whose element has the truthy key k. */
  ghost predicate LastWithKey(xs: seq<Element>, key: string, i: int, k: string)
  {
    && 0 <= i < |xs|
    && KeyOf(xs[i], key) == Some(k)
    && forall j :: i < j < |xs| ==> KeyOf(xs[j], key) != Some(k)
  }

  /** Dropping a last element that does not carry k changes nothing about k. */
  lemma ArrayToDictSkip(xs: seq<Element>, key: string, value: string, k: string)
    requires xs != [] && KeyOf(xs[|xs| - 1], key) != Some(k)
    ensures var before := ArrayToDict(xs[..|xs| - 1], key, value);
      (k in ArrayToDict(xs, key, value) <==> k in before)
      && (k in before ==> ArrayToDict(xs, key, value)[k] == before[k])
  {
  }

  /** The mapping holds exactly the truthy keys of the elements. */
  lemma {:induction false} ArrayToDictKeys(xs: seq<Element>, key: string, value: string, k: string)
    ensures k in ArrayToDict(xs, key, value) <==> exists i :: 0 <= i < |xs| && KeyOf(xs[i], key) == Some(k)
  {
    if xs != [] {
      var n := |xs| - 1;
      var init := xs[..n];
      ArrayToDictKeys(init, key, value, k);
      if KeyOf(xs[n], key) != Some(k) {
        ArrayToDictSkip(xs, key, value, k);
        if exists i :: 0 <= i < |xs| && KeyOf(xs[i], key) == Some(k) {
          var i :| 0 <= i < |xs| && KeyOf(xs[i], key) == Some(k);
          assert i < n && init[i] == xs[i];
        }
        if exists i :: 0 <= i < |init| && KeyOf(init[i], key) == Some(k) {
          var i :| 0 <= i < |init| && KeyOf(init[i], key) == Some(k);
          assert xs[i] == init[i];
        }
      }
    }
  }

  /** Each key is bound to the value of the last element that carries it. */
  lemma {:induction false} ArrayToDictLastWins(xs: seq<Element>, key: string, value: string, k: string)
    requires k in ArrayToDict(xs, key, value)
    ensures exists i :: LastWithKey(xs, key, i, k) && ArrayToDict(xs, key, value)[k] == ValueOf(xs[i], value)
  {
    var n := |xs| - 1;
    if KeyOf(xs[n], key) == Some(k) {
      assert LastWithKey(xs, key, n, k);
    } else {
      var init := xs[..n];
      ArrayToDictSkip(xs, key, value, k);
      ArrayToDictLastWins(init, key, value, k);
      var i :| LastWithKey(init, key, i, k) && ArrayToDict(init, key, value)[k] == ValueOf(init[i], value);
      assert init[i] == xs[i];
      assert LastWithKey(xs, key, i, k);
    }
  }

  /** At most one position is the last one carrying a given key. */
  lemma LastWithKeyIsUnique(xs: seq<Element>, key: string, i: int, j: int, k: string)
    requires LastWithKey(xs, key, i, k) && LastWithKey(xs, key, j, k)
    ensures i == j
  {
  }

  /** `formData.name` as the submit handler passes it on: `setItem` stores undefined as "undefined". */
  function FormField(form: FormData, name: string): (r: string)
    ensures name in form && form[name].Some? ==> r == form[name].value
    ensures name !in form || form[name].None? ==> r == "undefined"
  {
    if name in form && form[name].Some? then form[name].value else "undefined"
  }

  /** A field of the submitted form is the `value` of the last control with that `name`. */
  lemma {:induction false} FormFieldIsLastControl(xs: seq<Element>, i: int, name: string)
    requires LastWithKey(xs, "name", i, name) && "value" in xs[i]
    ensures FormField(ArrayToDict(xs, "name", "value"), name) == xs[i]["value"]
  {
    ArrayToDictKeys(xs, "name", "value", name);
    assert KeyOf(xs[i], "name") == Some(name);
    ArrayToDictLastWins(xs, "name", "value", name);
    var j :| LastWithKey(xs, "name", j, name) && ArrayToDict(xs, "name", "value")[name] == ValueOf(xs[j], "value");
    LastWithKeyIsUnique(xs, "name", i, j, name);
  }
}
