/** parse_note (src/notes.hpp): a note name — a letter A to G in either
    case, an optional flat ('b' or 'B') or sharp ('#'), then any number of
    octave marks '+' and '-' — turned into a number of half steps away from
    concert A. */
module Notes {
  import opened CValues

  /** What parse_note gives: the offset, or the runtime_error it throws. */
  datatype Parsed = Offset(value: int) | Failure(message: string)

  const MSG_BAD_NOTE := "bad note"
  const MSG_UNKNOWN_MODIFIER := "unknown note modifier"

  /** The dists table, indexed by letter from A, as the source has it. */
  const DISTS: seq<int> := [0, 2, 4, 5, 7, 9, 10]

  /** The first character, folded to upper case when it is 'a' to 'g'. */
  function FoldLetter(c: char): (u: char)
    ensures 'a' <= c <= 'g' ==> u as int == c as int - 0x20 && 'A' <= u <= 'G'
    ensures !('a' <= c <= 'g') ==> u == c
  {
    if 'a' <= c <= 'g' then (c as int - 0x20) as char else c
  }

  predicate IsNoteLetter(u: char)
  {
    'A' <= u <= 'G'
  }

  function BaseOffset(u: char): int
    requires IsNoteLetter(u)
  {
    DISTS[u as int - 'A' as int]
  }

  /** The accidental a second character stands for. */
  function Accidental(c: char): int
  {
    if c == 'b' || c == 'B' then -1 else if c == '#' then 1 else 0
  }

  /** Where the octave marks start: after the letter, and after the
      accidental when there is one. */
  function MarksStart(s: CString): nat
  {
    if |s| > 1 && Accidental(s[1]) != 0 then 2 else 1
  }

  /** How often c occurs in m. */
  function Count(m: seq<char>, c: char): (n: nat)
    ensures n <= |m|
    decreases |m|
  {
    if m == [] then 0 else Count(m[..|m| - 1], c) + (if m[|m| - 1] == c then 1 else 0)
  }

  predicate AllOctaveMarks(m: seq<char>)
  {
    forall i :: 0 <= i < |m| ==> m[i] == '+' || m[i] == '-'
  }

  /** The octave marks' net count: '+' minus '-'. */
  function Octaves(m: seq<char>): int
  {
    Count(m, '+') - Count(m, '-')
  }

  /** The offset before any octave mark: the folded letter's base plus
      the accidental. */
  function LetterOffset(s: CString): int
    requires |s| > 0 && IsNoteLetter(FoldLetter(s[0]))
  {
    BaseOffset(FoldLetter(s[0])) + (if |s| > 1 then Accidental(s[1]) else 0)
  }

  /** The reference definition: the folded letter's base offset, plus the
      accidental, plus 12 per '+' and minus 12 per '-'; "bad note" for a
      letter outside A to G (an empty string included) and "unknown note
      modifier" for any other character among the marks. */
  function NoteOffset(s: CString): Parsed
  {
    if |s| == 0 || !IsNoteLetter(FoldLetter(s[0])) then Failure(MSG_BAD_NOTE)
    else if !AllOctaveMarks(s[MarksStart(s)..]) then Failure(MSG_UNKNOWN_MODIFIER)
    else Offset(LetterOffset(s) + 12 * Octaves(s[MarksStart(s)..]))
  }

  /** parse_note, step by step over the C string. The debug-build
      assertions that the string is non-NULL and non-empty are compiled
      out; an empty string then fails the letter check. */
  method ParseNote(s: CString) returns (r: Parsed)
    requires IsCString(s)
    ensures r == NoteOffset(s)
  {
    var name: int := CharAt(s, 0) as int;
    if 'a' as int <= name <= 'g' as int {
      name := name - 0x20;
    }
    if name < 'A' as int || name > 'G' as int {
      return Failure(MSG_BAD_NOTE);
    }
    assert |s| > 0 && name == FoldLetter(s[0]) as int;
    name := name - 'A' as int;
    name := DISTS[name];
    var i := 1;
    if CharAt(s, i) == '\0' {
      assert s[MarksStart(s)..] == [];
      return Offset(name);
    } else if CharAt(s, i) == 'b' || CharAt(s, i) == 'B' {
      name := name - 1;
      i := i + 1;
    } else if CharAt(s, i) == '#' {
      name := name + 1;
      i := i + 1;
    }
    assert i == MarksStart(s);
    assert name == LetterOffset(s);
    r := ApplyMarks(s, i, name);
  }

  /** The loop over the octave marks, from index start, with the offset so
      far in base. */
  method ApplyMarks(s: CString, start: nat, base: int) returns (r: Parsed)
    requires IsCString(s) && start <= |s|
    ensures AllOctaveMarks(s[start..]) ==> r == Offset(base + 12 * Octaves(s[start..]))
    ensures !AllOctaveMarks(s[start..]) ==> r == Failure(MSG_UNKNOWN_MODIFIER)
  {
    var name := base;
    var i := start;
    while CharAt(s, i) != '\0'
      invariant start <= i <= |s|
      invariant AllOctaveMarks(s[start..i])
      invariant name == base + 12 * Octaves(s[start..i])
      decreases |s| - i
    {
      assert i < |s|;
      assert s[start..i + 1][..i - start] == s[start..i];
      if CharAt(s, i) == '-' {
        name := name - 12;
      } else if CharAt(s, i) == '+' {
        name := name + 12;
      } else {
        assert !AllOctaveMarks(s[start..]) by {
          assert s[start..][i - start] == s[i];
        }
        return Failure(MSG_UNKNOWN_MODIFIER);
      }
      i := i + 1;
    }
    assert s[start..i] == s[start..];
    r := Offset(name);
  }

  /** The expected values of the parse_notes test. */
  lemma TestVectors()
    ensures NoteOffset("a") == Offset(0) && NoteOffset("a#") == Offset(1)
    ensures NoteOffset("aB") == Offset(-1) && NoteOffset("ab") == Offset(-1)
    ensures NoteOffset("e--") == Offset(-17) && NoteOffset("e+") == Offset(19) && NoteOffset("e") == Offset(7)
    ensures NoteOffset("E--") == Offset(-17) && NoteOffset("A") == Offset(0) && NoteOffset("E+") == Offset(19)
    ensures NoteOffset("A#") == Offset(1) && NoteOffset("Ab") == Offset(-1) && NoteOffset("AB") == Offset(-1)
  {
    assert "e--"[1..] == "--" && "--"[..1] == "-";
    assert "E--"[1..] == "--";
    assert "e+"[1..] == "+" && "E+"[1..] == "+";
  }

  /** The letter is read case-insensitively: a lower-case letter gives
      the same result as its upper-case form. */
  lemma CaseInsensitive(s: CString)
    requires |s| > 0 && 'a' <= s[0] <= 'g'
    ensures NoteOffset(s) == NoteOffset([FoldLetter(s[0])] + s[1..])
  {
    var t := [FoldLetter(s[0])] + s[1..];
    assert t[1..] == s[1..] && |t| == |s|;
    assert FoldLetter(t[0]) == FoldLetter(s[0]);
    if |s| > 1 {
      assert t[1] == s[1];
    }
    assert MarksStart(t) == MarksStart(s);
    assert t[MarksStart(t)..] == s[MarksStart(s)..];
  }

  /** A one-letter note is exactly its base offset; any other first
      character is a bad note. */
  lemma OneLetter(c: char)
    ensures IsNoteLetter(FoldLetter(c)) ==> NoteOffset([c]) == Offset(BaseOffset(FoldLetter(c)))
    ensures !IsNoteLetter(FoldLetter(c)) ==> NoteOffset([c]) == Failure(MSG_BAD_NOTE)
  {
    assert [c][1..] == [];
  }

  lemma {:induction false} CountAppend(m: seq<char>, x: char, c: char)
    ensures Count(m + [x], c) == Count(m, c) + (if x == c then 1 else 0)
  {
    assert (m + [x])[..|m + [x]| - 1] == m;
  }

  /** Appending an octave mark to a valid note moves it by exactly one
      octave, up for '+' and down for '-'. */
  lemma {:induction false} OctaveMark(s: CString, mark: char)
    requires NoteOffset(s).Offset? && (mark == '+' || mark == '-')
    ensures NoteOffset(s + [mark]) == Offset(NoteOffset(s).value + (if mark == '+' then 12 else -12))
  {
    var t := s + [mark];
    var start := MarksStart(s);
    var m := s[start..];
    SameLetterAndMarksStart(s, mark);
    var mt := t[start..];
    assert mt == m + [mark];
    assert AllOctaveMarks(mt) by {
      forall i | 0 <= i < |mt|
        ensures mt[i] == '+' || mt[i] == '-'
      {
        if i < |m| {
          assert mt[i] == m[i];
        }
      }
    }
    CountAppend(m, mark, '+');
    CountAppend(m, mark, '-');
    assert Octaves(mt) == Octaves(m) + (if mark == '+' then 1 else -1);
  }

  /** Appending a character that is not an accidental keeps the letter,
      the accidental and where the octave marks start. */
  lemma SameLetterAndMarksStart(s: CString, mark: char)
    requires |s| > 0 && IsNoteLetter(FoldLetter(s[0])) && Accidental(mark) == 0
    ensures var t := s + [mark];
      |t| > 0 && IsNoteLetter(FoldLetter(t[0])) && LetterOffset(t) == LetterOffset(s) &&
      MarksStart(t) == MarksStart(s) && t[MarksStart(s)..] == s[MarksStart(s)..] + [mark]
  {
    var t := s + [mark];
    assert t[0] == s[0];
    if |s| > 1 {
      assert t[1] == s[1];
    }
  }

  /** The result modulo 12 depends only on the letter and the accidental. */
  lemma PitchClass(s: CString)
    requires NoteOffset(s).Offset?
    ensures NoteOffset(s).value % 12 == LetterOffset(s) % 12
  {
    var k := Octaves(s[MarksStart(s)..]);
    var b := LetterOffset(s);
    assert (b + 12 * k) % 12 == b % 12;
  }

  /** At most one accidental is read: a second one is an unknown modifier,
      as is any character other than an octave mark after it. */
  lemma SecondAccidental(s: CString)
    requires |s| >= 3 && IsNoteLetter(FoldLetter(s[0])) && Accidental(s[1]) != 0 && Accidental(s[2]) != 0
    ensures NoteOffset(s) == Failure(MSG_UNKNOWN_MODIFIER)
  {
    assert s[2..][0] == s[2];
  }

  /** Every failure is one of the two errors, and a note fails exactly when
      its letter is bad or a character after the accidental is not an
      octave mark. */
  lemma FailureCases(s: CString)
    ensures NoteOffset(s).Failure? <==>
      |s| == 0 || !IsNoteLetter(FoldLetter(s[0])) || !AllOctaveMarks(s[MarksStart(s)..])
    ensures NoteOffset(s).Failure? ==>
      (NoteOffset(s).message == MSG_BAD_NOTE <==> |s| == 0 || !IsNoteLetter(FoldLetter(s[0])))
  {
  }

  /** The base offsets as half steps above A: A B C D E F G lie 0 2 3 5 7
      8 10 half steps up, B to C and E to F being half steps. */
  const SEMITONES: seq<int> := [0, 2, 3, 5, 7, 8, 10]

  /** parse_note with the half-step table. */
  function CorrectedNoteOffset(s: CString): (r: Parsed)
    ensures r.Failure? <==> NoteOffset(s).Failure?
    ensures r.Failure? ==> r == NoteOffset(s)
  {
    match NoteOffset(s)
    case Failure(m) => Failure(m)
    case Offset(v) =>
      var i := FoldLetter(s[0]) as int - 'A' as int;
      Offset(v - DISTS[i] + SEMITONES[i])
  }

  /** The as-written table does not respect enharmonic spelling: B sharp
      and C are the same pitch, yet they parse to 3 and 4; E sharp and F
      parse to 8 and 9. */
  lemma EnharmonicMismatch()
    ensures NoteOffset("b#") == Offset(3) && NoteOffset("c") == Offset(4)
    ensures NoteOffset("e#") == Offset(8) && NoteOffset("f") == Offset(9)
  {
  }

  /** With the half-step table, B sharp is C, E sharp is F, C flat is B
      and F flat is E, whatever octave marks follow. */
  lemma {:induction false} CorrectedEnharmonic(marks: seq<char>)
    requires AllOctaveMarks(marks)
    ensures CorrectedNoteOffset("B#" + marks) == CorrectedNoteOffset("C" + marks)
    ensures CorrectedNoteOffset("E#" + marks) == CorrectedNoteOffset("F" + marks)
    ensures CorrectedNoteOffset("Cb" + marks) == CorrectedNoteOffset("B" + marks)
    ensures CorrectedNoteOffset("Fb" + marks) == CorrectedNoteOffset("E" + marks)
  {
    EnharmonicPair('B', '#', 'C', marks);
    EnharmonicPair('E', '#', 'F', marks);
    EnharmonicPair('C', 'b', 'B', marks);
    EnharmonicPair('F', 'b', 'E', marks);
  }

  /** A letter with an accidental and the letter one half step away share
      their octave marks, so they agree once their base values agree. */
  lemma EnharmonicPair(a: char, acc: char, b: char, marks: seq<char>)
    requires IsNoteLetter(a) && IsNoteLetter(b) && Accidental(acc) != 0
    requires SEMITONES[a as int - 'A' as int] + Accidental(acc) == SEMITONES[b as int - 'A' as int]
    requires AllOctaveMarks(marks)
    ensures CorrectedNoteOffset([a, acc] + marks) == CorrectedNoteOffset([b] + marks)
  {
    var s, t := [a, acc] + marks, [b] + marks;
    assert s[0] == a && s[1] == acc && t[0] == b;
    assert s[2..] == marks;
    assert t[1..] == marks;
    if |marks| > 0 {
      assert t[1] == marks[0];
    }
  }
}
