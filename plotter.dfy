/** The sample accumulator of the command-line tool (cli/plotter.hpp): one X
    store and one Y store per configured input, and a count of every sample
    added so far. */
module BlotPlotter {

  /** The total length of a list of stores. */
  function TotalLength<X>(s: seq<seq<X>>): nat
  {
    if |s| == 0 then 0 else TotalLength(s[..|s| - 1]) + |s[|s| - 1]|
  }

  /** Appending one sample to one store adds one to the total and nothing
      else. */
  lemma {:induction false} TotalLengthAppend<X>(s: seq<seq<X>>, layer: nat, x: X)
    requires layer < |s|
    ensures TotalLength(s[layer := s[layer] + [x]]) == TotalLength(s) + 1
    decreases |s|
  {
    var t := s[layer := s[layer] + [x]];
    if layer == |s| - 1 {
      assert t[..|t| - 1] == s[..|s| - 1];
    } else {
      assert t[..|t| - 1] == s[..|s| - 1][layer := s[layer] + [x]];
      TotalLengthAppend(s[..|s| - 1], layer, x);
    }
  }

  /** The total is positive exactly when some store holds a sample. */
  lemma {:induction false} TotalLengthPositive<X>(s: seq<seq<X>>)
    ensures TotalLength(s) > 0 <==> exists i | 0 <= i < |s| :: |s[i]| > 0
    decreases |s|
  {
    if |s| > 0 {
      var t := s[..|s| - 1];
      TotalLengthPositive(t);
      if exists i | 0 <= i < |t| :: |t[i]| > 0 {
        var i :| 0 <= i < |t| && |t[i]| > 0;
        assert |s[i]| > 0;
      }
      if exists i | 0 <= i < |s| :: |s[i]| > 0 {
        var i :| 0 <= i < |s| && |s[i]| > 0;
        if i < |t| {
          assert |t[i]| > 0;
        }
      }
    }
  }

  /** Stores with no sample in any of them. */
  lemma {:induction false} TotalLengthOfEmpty<X>(s: seq<seq<X>>)
    requires forall i | 0 <= i < |s| :: s[i] == []
    ensures TotalLength(s) == 0
    decreases |s|
  {
    if |s| > 0 {
      TotalLengthOfEmpty(s[..|s| - 1]);
    }
  }

  class Plotter<X, Y> {
    /** m_max_layers: the number of configured inputs. */
    const maxLayers: nat
    /** The m_xs and m_ys vectors of each layer's Data. */
    var xs: seq<seq<X>>
    var ys: seq<seq<Y>>
    /** m_count: the number of samples added. */
    var count: nat

    /** One store pair per input, X and Y stores of equal length, and the
        count is the number of samples they hold. */
    predicate Valid()
      reads this
    {
      && |xs| == maxLayers && |ys| == maxLayers
      && (forall i | 0 <= i < maxLayers :: |xs[i]| == |ys[i]|)
      && count == TotalLength(xs)
    }

    /** Plotter(config): m_data is resized to the number of inputs, each
        store empty, and the count is zero. */
    constructor(inputs: nat)
      ensures maxLayers == inputs
      ensures xs == seq(inputs, _ => []) && ys == seq(inputs, _ => [])
      ensures count == 0
      ensures Valid()
    {
      maxLayers := inputs;
      xs := seq(inputs, _ => []);
      ys := seq(inputs, _ => []);
      count := 0;
      new;
      TotalLengthOfEmpty(xs);
    }

    /** Plotter::add: x and y go to the end of that layer's stores, the count
        grows by one, and no other layer changes.  The layer must be one of
        the configured inputs (operator[] is unchecked). */
    method Add(layer: nat, x: X, y: Y)
      requires Valid() && layer < maxLayers
      modifies this
      ensures xs == old(xs)[layer := old(xs)[layer] + [x]]
      ensures ys == old(ys)[layer := old(ys)[layer] + [y]]
      ensures count == old(count) + 1
      ensures Valid()
    {
      TotalLengthAppend(xs, layer, x);
      xs := xs[layer := xs[layer] + [x]];
      ys := ys[layer := ys[layer] + [y]];
      count := count + 1;
    }

    /** Plotter::have_data: whether a sample was added, that is, whether some
        layer holds a sample. */
    function HaveData(): (b: bool)
      reads this
      ensures b <==> count > 0
      ensures Valid() ==> (b <==> exists i | 0 <= i < |xs| :: |xs[i]| > 0)
    {
      TotalLengthPositive(xs);
      count > 0
    }
  }
}
