/**
 * Argument normalisation in `load` (gamestonk_terminal/forex/fx_view.py):
 * a bare first argument is taken to be the instrument, so the `-i` flag is
 * inserted in front of it, in place, in the caller's list; the instrument
 * the parser then finds is returned upper-cased.
 */
module InstrumentLoad {
  import opened Wrappers
  import opened PyText

  const InstrumentFlag := "-i"

  /** The caller's argument list, which `load` changes in place. */
  class ArgList {
    var items: seq<string>

    constructor (items: seq<string>)
      ensures this.items == items
    {
      this.items := items;
    }
  }

  /** True when `load` treats the first argument as a bare instrument name. */
  predicate NeedsFlag(args: seq<string>) {
    |args| > 0 && '-' !in args[0]
  }

  /** The argument list after normalisation. */
  function NormalizedArgs(args: seq<string>): (r: seq<string>)
    ensures |r| == |args| + (if NeedsFlag(args) then 1 else 0)
    ensures r[|r| - |args|..] == args
    ensures NeedsFlag(args) ==> r[0] == InstrumentFlag
  {
    if NeedsFlag(args) then [InstrumentFlag] + args else args
  }

  /**
   * The flag is inserted exactly when the list is non-empty and its first
   * element has no `-` anywhere; it then goes in front and every original
   * argument moves up by one. Otherwise, the empty list included, nothing changes.
   */
  lemma NormalizedArgsSpec(args: seq<string>)
    ensures NeedsFlag(args) ==>
      && |NormalizedArgs(args)| == |args| + 1
      && NormalizedArgs(args)[0] == InstrumentFlag
      && forall i :: 0 <= i < |args| ==> NormalizedArgs(args)[i + 1] == args[i]
    ensures !NeedsFlag(args) ==> NormalizedArgs(args) == args
    ensures args == [] ==> NormalizedArgs(args) == []
  {
  }

  /** Normalising an already normalised list changes nothing. */
  lemma NormalizedArgsIdempotent(args: seq<string>)
    ensures NormalizedArgs(NormalizedArgs(args)) == NormalizedArgs(args)
  {
    if NeedsFlag(args) {
      assert NormalizedArgs(args)[0] == InstrumentFlag;
      assert InstrumentFlag[0] == '-';
    }
  }

  /** The test is "contains a dash", not "starts with a dash": `EUR-USD` gets no flag. */
  lemma DashAnywhereSuppressesFlag()
    ensures NormalizedArgs(["EUR-USD"]) == ["EUR-USD"]
    ensures NormalizedArgs(["eur_usd"]) == ["-i", "eur_usd"]
  {
    assert "EUR-USD"[3] == '-';
  }

  /** The instrument `load` returns, as a function of the list it was given. */
  function LoadedInstrument(args: seq<string>, parse: seq<string> -> Option<string>): (r: Option<string>)
    ensures r.Some? <==> parse(NormalizedArgs(args)).Some?
    ensures r.Some? ==> r.value == Upper(parse(NormalizedArgs(args)).value)
  {
    match parse(NormalizedArgs(args))
    case None => None
    case Some(name) => Some(Upper(name))
  }

  /**
   * `load`: normalise the caller's list in place, hand it to the argument
   * parser (a parameter here: it yields the `--instrument` value, or nothing
   * when parsing fails) and return the instrument upper-cased.
   */
  method Load(args: ArgList, parse: seq<string> -> Option<string>) returns (instrument: Option<string>)
    modifies args
    ensures args.items == NormalizedArgs(old(args.items))
    ensures instrument == LoadedInstrument(old(args.items), parse)
  {
    if |args.items| > 0 {
      if '-' !in args.items[0] {
        args.items := [InstrumentFlag] + args.items;
      }
    }
    var parsed := parse(args.items);
    if parsed.None? {
      return None;
    }
    instrument := Some(Upper(parsed.value));
  }

  /**
   * The returned instrument has no lower-case letter, is as long as what the
   * parser found, and loading twice (on the list the first load left behind)
   * returns the same instrument.
   */
  lemma LoadedInstrumentProperties(args: seq<string>, parse: seq<string> -> Option<string>)
    ensures LoadedInstrument(args, parse).Some? <==> parse(NormalizedArgs(args)).Some?
    ensures LoadedInstrument(args, parse).Some? ==>
      var name := LoadedInstrument(args, parse).value;
      && |name| == |parse(NormalizedArgs(args)).value|
      && (forall i :: 0 <= i < |name| ==> !IsLower(name[i]))
      && Upper(name) == name
    ensures LoadedInstrument(NormalizedArgs(args), parse) == LoadedInstrument(args, parse)
  {
    NormalizedArgsIdempotent(args);
    if parse(NormalizedArgs(args)).Some? {
      UpperIdempotent(parse(NormalizedArgs(args)).value);
    }
  }
}
