/** What both transfers share: the reading end of a data connection, a `getline` loop over a stream. */
module Pipes {
  import opened LibC

  /** Reading the next reply moves it from the control connection to what was read. */
  lemma NextReply(replies: seq<int>, control: seq<int>)
    requires control != []
    ensures (replies + [control[0]]) + control[1..] == replies + control
    ensures control[0] == (replies + control)[|replies|]
  {
  }

  /** `buffer`: received but not yet a whole line. `taken`: handed out by `getline` so far. */
  datatype LineReader = LineReader(buffer: string, taken: string) {
    /** Everything that has left the connection. */
    function All(): string {
      taken + buffer
    }

    /** `getline` has no whole line and reads more. */
    predicate CanReceive(channel: string) {
      '\n' !in buffer && channel != ""
    }

    function Receive(channel: string, k: nat): LineReader
      requires k <= |channel|
    {
      this.(buffer := buffer + channel[..k])
    }

    /** `getline` returns a line, or at the end of the stream what is left. */
    predicate CanTake(channel: string, ended: bool) {
      '\n' in buffer || (ended && channel == "" && buffer != "")
    }

    function Take(): LineReader {
      var line := FirstLine(buffer);
      LineReader(buffer[|line|..], taken + line)
    }

    /** `getline` returns -1. */
    predicate AtEnd(channel: string, ended: bool) {
      ended && channel == "" && buffer == ""
    }

    /** A reader is held up only by a connection that is open and empty. */
    lemma ReaderProgress(channel: string, ended: bool)
      ensures CanReceive(channel) || CanTake(channel, ended) || AtEnd(channel, ended) <==>
        channel != "" || ended || '\n' in buffer
    {
    }

    lemma TakeKeepsAll()
      ensures Take().All() == All()
      ensures buffer != "" ==> |Take().buffer| < |buffer|
    {
      var line := FirstLine(buffer);
      assert buffer == line + buffer[|line|..];
    }

    /** Bytes that move from a writer into the connection, or from there to the reader, keep their
        place in the stream. */
    lemma Moved(channel: string, out: string, k: nat, rest: string)
      requires k <= |out|
      ensures All() + ((channel + out[..k]) + (out[k..] + rest)) == All() + (channel + (out + rest))
    {
      assert (channel + out[..k]) + (out[k..] + rest) == channel + (out + rest);
    }

    lemma ReceiveShift(channel: string, k: nat, rest: string)
      requires k <= |channel|
      ensures Receive(channel, k).All() + (channel[k..] + rest) == All() + (channel + rest)
    {
      ReceiveMoves(channel, k);
      var all, now := Receive(channel, k).All(), All();
      hide *;
      assert (all + channel[k..]) + rest == (now + channel) + rest;
    }

    lemma ReceiveMoves(channel: string, k: nat)
      requires k <= |channel|
      ensures Receive(channel, k).All() + channel[k..] == All() + channel
    {
      assert channel == channel[..k] + channel[k..];
    }
  }
}
