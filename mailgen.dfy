/** kulam-mailgen/App.tsx: a disposable-address generator. Each "Generate"
    draws a random local part of 4 to 10 characters over a-z and 0-9,
    retrying until it draws one it has not handed out before, remembers it,
    and shows it under the domain kulam.my.id. Clicking the address copies it,
    unless the placeholder text is still showing.

    The Math.random() values are an input stream `draws`: each attempt takes
    one draw for the length and then one per character. */
module Mailgen {
  import opened Wrappers
  import opened RandomDraw

  const Alphabet: string := "abcdefghijklmnopqrstuvwxyz0123456789"
  const Domain: string := "@kulam.my.id"
  const Placeholder: string := "Click \"Generate\""

  /** `Math.floor(Math.random() * 7) + 4`. */
  function NameLength(r: real): (len: nat)
    requires IsDraw(r)
    ensures 4 <= len <= 10
  {
    Index(r, 7) + 4
  }

  /** The attempt that starts at position `pos` of the stream: the name it
      draws and the position after it, or None if the stream ends first. */
  function Attempt(draws: seq<real>, pos: nat): (a: Option<(string, nat)>)
    requires AllDraws(draws)
    ensures a.Some? ==> pos < a.value.1 <= |draws|
  {
    if pos >= |draws| then None
    else
      var len := NameLength(draws[pos]);
      if pos + 1 + len > |draws| then None
      else Some((Picked(Alphabet, draws[pos + 1..pos + 1 + len]), pos + 1 + len))
  }

  /** The do-while loop as a function: the first name drawn from `pos` on that
      is not in `used`, or None if the stream runs out before one is found. */
  function FirstFresh(draws: seq<real>, pos: nat, used: set<string>): (r: Option<string>)
    requires AllDraws(draws)
    decreases |draws| - pos
  {
    match Attempt(draws, pos)
    case None => None
    case Some((name, next)) => if name !in used then Some(name) else FirstFresh(draws, next, used)
  }

  /** Every name the generator can accept is new, 4 to 10 characters long and
      made of lower-case letters and digits only. */
  lemma {:induction false} FirstFreshIsFreshName(draws: seq<real>, pos: nat, used: set<string>)
    requires AllDraws(draws) && FirstFresh(draws, pos, used).Some?
    ensures var name := FirstFresh(draws, pos, used).value;
      name !in used && 4 <= |name| <= 10 && forall i :: 0 <= i < |name| ==> name[i] in Alphabet
    decreases |draws| - pos
  {
    var name := Attempt(draws, pos).value.0;
    var next := Attempt(draws, pos).value.1;
    if name in used {
      FirstFreshIsFreshName(draws, next, used);
    } else {
      PickedFromAlphabet(Alphabet, draws[pos + 1..next]);
    }
  }

  /** No generated address is the placeholder: the placeholder holds a quote
      and a space, which no local part or the domain contains. */
  lemma AddressIsNotPlaceholder(name: string)
    requires forall i :: 0 <= i < |name| ==> name[i] in Alphabet
    ensures name + Domain != Placeholder
  {
    if |name| == 4 {
      assert (name + Domain)[0] == name[0] && name[0] in Alphabet;
      assert Placeholder[0] == 'C' && 'C' !in Alphabet;
    }
  }

  /** The component's state. */
  class MailGenApp {
    var email: string
    var isCopied: bool
    var generatedNames: set<string>

    ghost predicate Valid()
      reads this
    {
      email == Placeholder || exists name :: name in generatedNames && email == name + Domain
    }

    /** Before the mount effect runs: the placeholder, nothing copied, no names. */
    constructor ()
      ensures Valid()
      ensures email == Placeholder && !isCopied && generatedNames == {}
    {
      email := Placeholder;
      isCopied := false;
      generatedNames := {};
    }

    /** generateEmail: retry until the drawn name is new, record it, show it,
        and clear the "copied" mark. */
    method GenerateEmail(draws: seq<real>) returns (name: string)
      requires Valid() && AllDraws(draws)
      requires FirstFresh(draws, 0, generatedNames).Some?
      modifies this
      ensures Valid()
      ensures name == FirstFresh(draws, 0, old(generatedNames)).value
      ensures name !in old(generatedNames) && generatedNames == old(generatedNames) + {name}
      ensures email == name + Domain && email != Placeholder && !isCopied
      ensures 4 <= |name| <= 10 && forall i :: 0 <= i < |name| ==> name[i] in Alphabet
    {
      FirstFreshIsFreshName(draws, 0, generatedNames);
      var pos := 0;
      while true
        invariant pos <= |draws| && generatedNames == old(generatedNames)
        invariant FirstFresh(draws, pos, generatedNames).Some?
        invariant FirstFresh(draws, pos, generatedNames) == FirstFresh(draws, 0, generatedNames)
        decreases |draws| - pos
      {
        assert Attempt(draws, pos).Some?;
        var len := NameLength(draws[pos]);
        name := PickString(Alphabet, draws[pos + 1..], len);
        assert draws[pos + 1..][..len] == draws[pos + 1..pos + 1 + len];
        assert Attempt(draws, pos) == Some((name, pos + 1 + len));
        if name !in generatedNames {
          assert name == FirstFresh(draws, 0, generatedNames).value;
          break;
        }
        pos := pos + 1 + len;
      }
      generatedNames := generatedNames + {name};
      AddressIsNotPlaceholder(name);
      email := name + Domain;
      isCopied := false;
    }

    /** copyToClipboard: the text handed to the clipboard, or None while the
        placeholder is showing. The clipboard write and the timed reset of
        `isCopied` are not modelled. */
    method CopyToClipboard() returns (written: Option<string>)
      ensures written == None <==> email == Placeholder
      ensures written.Some? ==> written.value == email
    {
      if email != Placeholder {
        written := Some(email);
      } else {
        written := None;
      }
    }
  }
}
