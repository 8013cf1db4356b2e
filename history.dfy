/**
  The search-history column: a list of queries stored as one text, joined
  on `|` when written (db_operations.py:32) and split on `|` when read,
  with the empty text read as the empty list (db_operations.py:16).
 */
module History {

  const Sep := '|'

  /** Python's `text.split('|')`: always at least one piece, none holding the separator. */
  function Split(text: string): (pieces: seq<string>)
    ensures |pieces| >= 1
    ensures forall k :: 0 <= k < |pieces| ==> Sep !in pieces[k]
  {
    if text == [] then [""]
    else
      var rest := Split(text[1..]);
      if text[0] == Sep then [""] + rest
      else [[text[0]] + rest[0]] + rest[1..]
  }

  /** Python's `'|'.join(pieces)`. */
  function Join(pieces: seq<string>): string {
    if |pieces| == 0 then ""
    else if |pieces| == 1 then pieces[0]
    else pieces[0] + [Sep] + Join(pieces[1..])
  }

  /** Reading the column: `text.split('|') if text else []`. */
  function Decode(text: string): seq<string> {
    if text == "" then [] else Split(text)
  }

  /** Writing the column: `'|'.join(entries)`. */
  function Encode(entries: seq<string>): string {
    Join(entries)
  }

  /** An entry the text format can hold: no separator inside. */
  predicate Storable(entries: seq<string>) {
    forall k :: 0 <= k < |entries| ==> Sep !in entries[k]
  }

  lemma {:induction false} JoinSplit(text: string)
    ensures Join(Split(text)) == text
  {
    if text != [] {
      var rest := Split(text[1..]);
      JoinSplit(text[1..]);
      if text[0] == Sep {
        assert ([""] + rest)[1..] == rest;
      } else {
        var pieces := [[text[0]] + rest[0]] + rest[1..];
        if |rest| == 1 {
          assert pieces == [[text[0]] + rest[0]];
        } else {
          assert pieces[1..] == rest[1..];
          assert Join(rest) == rest[0] + [Sep] + Join(rest[1..]);
        }
      }
    }
  }

  lemma {:induction false} SplitPlain(word: string)
    requires Sep !in word
    ensures Split(word) == [word]
  {
    if word != [] {
      SplitPlain(word[1..]);
      assert [word[0]] + word[1..] == word;
    }
  }

  lemma {:induction false} SplitAtSep(word: string, tail: string)
    requires Sep !in word
    ensures Split(word + [Sep] + tail) == [word] + Split(tail)
  {
    if word == [] {
      assert ([] + [Sep] + tail)[1..] == tail;
    } else {
      assert (word + [Sep] + tail)[1..] == word[1..] + [Sep] + tail;
      SplitAtSep(word[1..], tail);
      assert [word[0]] + word[1..] == word;
    }
  }

  lemma {:induction false} SplitJoin(pieces: seq<string>)
    requires |pieces| >= 1 && Storable(pieces)
    ensures Split(Join(pieces)) == pieces
  {
    if |pieces| == 1 {
      SplitPlain(pieces[0]);
    } else {
      SplitAtSep(pieces[0], Join(pieces[1..]));
      SplitJoin(pieces[1..]);
    }
  }

  lemma {:induction false} JoinEmpty(pieces: seq<string>)
    requires Join(pieces) == ""
    ensures pieces == [] || pieces == [""]
  {
  }

  /** Reading back what was written: every stored text is reproduced exactly. */
  lemma EncodeDecode(text: string)
    ensures Encode(Decode(text)) == text
  {
    if text != "" {
      JoinSplit(text);
    }
  }

  /**
    Writing then reading gives the entries back when none holds `|`; the one
    list that does not survive is `[""]`, which is written as "" and read as [].
   */
  lemma DecodeEncode(entries: seq<string>)
    requires Storable(entries) && entries != [""]
    ensures Decode(Encode(entries)) == entries
  {
    if Encode(entries) == "" {
      JoinEmpty(entries);
    } else {
      SplitJoin(entries);
    }
  }

  lemma {:induction false} JoinSnoc(pieces: seq<string>, last: string)
    requires |pieces| >= 1
    ensures Join(pieces + [last]) == Join(pieces) + [Sep] + last
  {
    if |pieces| == 1 {
      assert (pieces + [last])[1..] == [last];
    } else {
      assert (pieces + [last])[1..] == pieces[1..] + [last];
      JoinSnoc(pieces[1..], last);
    }
  }

  /** Appending an entry to the decoded list and writing it back extends the text by `|` and the entry. */
  lemma AppendText(text: string, entry: string)
    ensures Encode(Decode(text) + [entry]) == if text == "" then entry else text + [Sep] + entry
  {
    if text == "" {
      assert Decode(text) + [entry] == [entry];
    } else {
      JoinSnoc(Split(text), entry);
      JoinSplit(text);
    }
  }

  /** An entry without `|` appended this way reads back as exactly one more entry, at the end. */
  lemma AppendEntry(text: string, entry: string)
    requires entry != "" && Sep !in entry
    ensures Decode(Encode(Decode(text) + [entry])) == Decode(text) + [entry]
  {
    var entries := Decode(text) + [entry];
    assert Storable(entries) by {
      if text != "" {
        assert Decode(text) == Split(text);
      }
    }
    assert entries[|entries| - 1] == entry;
    DecodeEncode(entries);
  }
}
