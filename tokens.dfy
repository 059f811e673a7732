/** The scanner as the parser uses it: a source of symbols with the two queues of the error-recovery
    protocol. `get_symbol` hands out the symbols held in `priority_queue` first, then fresh input, then
    EOF for ever; `temp_queue` is a list the parser appends to and clears. */
module Tokens {
  import opened Wrappers
  import opened Symbols

  /** A symbol: its type (`None` for a character the scanner does not know), its id (the name id of a
      name or reserved word, the value of a number, `None` otherwise) and, for a number, its digits as
      written. */
  datatype Symbol = Symbol(stype: Option<SymbolType>, id: Option<int>, numString: string)

  const EofSymbol := Symbol(Some(Eof), None, "")

  predicate IsType(s: Symbol, t: SymbolType) {
    s.stype == Some(t)
  }

  /** The token source's state: the whole symbol stream of the file, how much of it has been read, and
      the two queues. */
  datatype Source = Source(input: seq<Symbol>, pos: nat, priorityQueue: seq<Symbol>, tempQueue: seq<Symbol>)

  /** The symbols still to be handed out, in order, before the source is exhausted. */
  function Pending(src: Source): seq<Symbol> {
    src.priorityQueue + (if src.pos <= |src.input| then src.input[src.pos..] else [])
  }

  /** `get_symbol`: the next pending symbol, or EOF (consuming nothing) once none is left. */
  function Next(src: Source): (r: (Symbol, Source))
    ensures Pending(src) == [] ==> r.0 == EofSymbol && r.1 == src
    ensures Pending(src) != [] ==> r.0 == Pending(src)[0] && Pending(r.1) == Pending(src)[1..]
    ensures r.1.input == src.input && r.1.tempQueue == src.tempQueue
    ensures src.pos <= r.1.pos && (r.1.pos <= |r.1.input| || r.1.pos == src.pos)
    ensures src.priorityQueue == [] ==> r.1.priorityQueue == []
  {
    if src.priorityQueue != [] then
      (src.priorityQueue[0], src.(priorityQueue := src.priorityQueue[1..]))
    else if src.pos < |src.input| then
      assert src.input[src.pos..] == [src.input[src.pos]] + src.input[src.pos + 1..];
      (src.input[src.pos], src.(pos := src.pos + 1))
    else
      (EofSymbol, src)
  }

  class TokenSource {
    const input: seq<Symbol>
    var pos: nat
    var priorityQueue: seq<Symbol>
    var tempQueue: seq<Symbol>

    function State(): Source
      reads this
    {
      Source(input, pos, priorityQueue, tempQueue)
    }

    /** A token source over the symbol stream of a freshly opened file, with both queues empty. */
    constructor (input: seq<Symbol>)
      ensures State() == Source(input, 0, [], [])
    {
      this.input := input;
      pos := 0;
      priorityQueue := [];
      tempQueue := [];
    }

    method GetSymbol() returns (s: Symbol)
      modifies this
      ensures (s, State()) == Next(old(State()))
    {
      if priorityQueue != [] {
        s := priorityQueue[0];
        priorityQueue := priorityQueue[1..];
      } else if pos < |input| {
        s := input[pos];
        pos := pos + 1;
      } else {
        s := EofSymbol;
      }
    }
  }
}
