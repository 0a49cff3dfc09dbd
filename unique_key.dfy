/**
 * The uid allocator `getUniqueKey(object)`, identical in both server versions.
 *
 * The random candidates are supplied as `draws`: the strings
 * `Math.random().toString().slice(2)` would produce, one per attempt. An
 * object is given as its enumerable properties in `for..in` order, each as
 * the pair (name, string conversion of the value); the loose comparison
 * `object[key] == key` of an object with a string compares that conversion.
 */
module UniqueKey {
  import opened Values

  type Props = seq<(string, string)>

  function Names(obj: Props): set<string> {
    set i | 0 <= i < |obj| :: obj[i].0
  }

  /**
   * The inner loop as written: `for (let key in object)` declares a new `key`
   * that hides the candidate, so each property is compared with its own name
   * and the candidate plays no part.
   */
  predicate SelfMatch(obj: Props) {
    exists i :: 0 <= i < |obj| && obj[i].1 == obj[i].0
  }

  /**
   * `getUniqueKey` as written: on a match it starts over with a new draw,
   * otherwise it returns the current draw. None stands for running out of
   * draws, i.e. recursion that does not end. Whenever it returns, it returns
   * the first draw: a retry never produces a key.
   */
  function GetUniqueKey(obj: Props, draws: seq<string>): (r: Option<string>)
    ensures r.Some? <==> draws != [] && !SelfMatch(obj)
    ensures r.Some? ==> r.value == draws[0]
    decreases |draws|
  {
    if draws == [] then None
    else if SelfMatch(obj) then GetUniqueKey(obj, draws[1..])
    else Some(draws[0])
  }

  /** A self-matching property makes every attempt fail: the recursion never returns. */
  lemma {:induction false} SelfMatchNeverReturns(obj: Props, draws: seq<string>)
    requires SelfMatch(obj)
    ensures GetUniqueKey(obj, draws) == None
    decreases |draws|
  {
    if draws != [] {
      SelfMatchNeverReturns(obj, draws[1..]);
    }
  }

  /**
   * Otherwise the first draw is returned whatever it is, in particular when it
   * already names a property of the object.
   */
  lemma CollisionUndetected(obj: Props, draws: seq<string>)
    requires !SelfMatch(obj) && draws != []
    ensures GetUniqueKey(obj, draws) == Some(draws[0])
  {
  }

  /** A registry holding uid "7" as an entry object, and a first draw of "7". */
  lemma CollisionExample()
    ensures var obj := [("7", "[object Object]")];
      "7" in Names(obj) && GetUniqueKey(obj, ["7", "8"]) == Some("7")
  {
    var obj := [("7", "[object Object]")];
    assert !SelfMatch(obj) by {
      assert obj[0].1 != obj[0].0;
    }
    assert "7" in Names(obj) by {
      assert obj[0].0 == "7";
    }
  }

  /** A string of decimal digits, as `Math.random().toString().slice(2)` gives. */
  predicate Digits(s: string) {
    forall i :: 0 <= i < |s| ==> '0' <= s[i] <= '9'
  }

  /** The string conversion of a plain object or a transport object. */
  const ObjectText: string := "[object Object]"

  /** No digit string is the conversion of an object. */
  lemma DigitsAreNotObjectText(s: string)
    requires Digits(s)
    ensures s != ObjectText
  {
    assert ObjectText[0] == '[';
  }

  /** At least one of the draws is not taken: the random source eventually yields a fresh key. */
  predicate SomeFresh(draws: seq<string>, taken: set<string>) {
    exists i :: 0 <= i < |draws| && draws[i] !in taken
  }

  /**
   * The allocator as intended by its doc comment: retry while the candidate
   * is already a key of the object, so the result is the first fresh draw.
   */
  function FreshKey(taken: set<string>, draws: seq<string>): (r: Option<string>)
    ensures r.Some? <==> SomeFresh(draws, taken)
    ensures r.Some? ==> r.value !in taken
    ensures r.Some? ==> exists i :: 0 <= i < |draws| && draws[i] == r.value &&
                                    forall j :: 0 <= j < i ==> draws[j] in taken
    decreases |draws|
  {
    if draws == [] then None
    else if draws[0] in taken then
      var r := FreshKey(taken, draws[1..]);
      assert SomeFresh(draws, taken) ==> SomeFresh(draws[1..], taken) by {
        if SomeFresh(draws, taken) {
          var i :| 0 <= i < |draws| && draws[i] !in taken;
          assert draws[1..][i - 1] == draws[i];
        }
      }
      assert r.Some? ==> exists i :: 0 <= i < |draws| && draws[i] == r.value &&
                                     forall j :: 0 <= j < i ==> draws[j] in taken by {
        if r.Some? {
          var i :| 0 <= i < |draws[1..]| && draws[1..][i] == r.value &&
                   forall j :: 0 <= j < i ==> draws[1..][j] in taken;
          assert draws[i + 1] == r.value;
          assert forall j :: 0 <= j < i + 1 ==> draws[j] in taken by {
            forall j | 0 <= j < i + 1 ensures draws[j] in taken {
              if j > 0 { assert draws[j] == draws[1..][j - 1]; }
            }
          }
        }
      }
      r
    else
      Some(draws[0])
  }

  /**
   * When the first draw is fresh (which is what the doc comment intends of the
   * random candidate) and nothing self-matches, the source's allocator and the
   * intended one pick the same key.
   */
  lemma AgreesOnFreshDraw(obj: Props, draws: seq<string>)
    requires !SelfMatch(obj) && draws != [] && draws[0] !in Names(obj)
    ensures FreshKey(Names(obj), draws) == GetUniqueKey(obj, draws) == Some(draws[0])
  {
  }
}
