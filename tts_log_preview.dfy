/**
 * The preview of the input text that `generate_speech` writes to the log
 * (apps/mofa-tts/src/screen.rs): text longer than 50 bytes is cut to its
 * first 50 bytes and followed by "...".
 *
 * Rust strings are UTF-8 and `len` counts bytes, so the cut is at a byte
 * offset; slicing a string at an offset inside a character panics. A
 * `string` here is a sequence of Unicode scalar values, and `ByteLen` is
 * the length of its UTF-8 encoding.
 */
module TtsLogPreview {
  import opened Wrappers

  const PreviewBytes: nat := 50
  const Ellipsis: string := "..."

  /** The number of bytes UTF-8 uses for `c`. */
  function Utf8Len(c: char): (n: nat)
    ensures 1 <= n <= 4
    ensures n == 1 <==> c as int < 0x80
  {
    if c as int < 0x80 then 1
    else if c as int < 0x800 then 2
    else if c as int < 0x1_0000 then 3
    else 4
  }

  /** The UTF-8 length of `s` in bytes (Rust's `str::len`). */
  function ByteLen(s: string): nat
  {
    if s == [] then 0 else Utf8Len(s[0]) + ByteLen(s[1..])
  }

  lemma {:induction false} ByteLenAppend(a: string, b: string)
    ensures ByteLen(a + b) == ByteLen(a) + ByteLen(b)
    decreases |a|
  {
    if a == [] {
      assert a + b == b;
    } else {
      assert (a + b)[0] == a[0];
      assert (a + b)[1..] == a[1..] + b;
      ByteLenAppend(a[1..], b);
    }
  }

  /** A prefix has no more bytes than the whole string, and each character adds at least one. */
  lemma {:induction false} ByteLenPrefix(s: string, i: nat)
    requires i <= |s|
    ensures i <= ByteLen(s[..i]) <= ByteLen(s)
  {
    assert s == s[..i] + s[i..];
    ByteLenAppend(s[..i], s[i..]);
    ByteLenAtLeastLength(s[..i]);
  }

  lemma {:induction false} ByteLenAtLeastLength(s: string)
    ensures |s| <= ByteLen(s)
    decreases |s|
  {
    if s != [] {
      ByteLenAtLeastLength(s[1..]);
    }
  }

  /**
   * `&s[..k]`: the prefix that ends exactly at byte `k`, or None where
   * Rust panics because byte `k` is not a character boundary of `s`.
   */
  function PrefixAtByte(s: string, k: nat): (r: Option<string>)
    ensures r.Some? ==> |r.value| <= |s| && r.value == s[..|r.value|] && ByteLen(r.value) == k
    decreases |s|
  {
    if k == 0 then Some([])
    else if s == [] || Utf8Len(s[0]) > k then None
    else
      match PrefixAtByte(s[1..], k - Utf8Len(s[0]))
      case None => None
      case Some(p) =>
        assert [s[0]] + p == s[..1 + |p|];
        assert ([s[0]] + p)[1..] == p;
        Some([s[0]] + p)
  }

  /** PrefixAtByte fails exactly when no prefix of `s` ends at byte `k`. */
  lemma {:induction false} PrefixAtByteNoneIff(s: string, k: nat)
    ensures PrefixAtByte(s, k).None? <==> forall i :: 0 <= i <= |s| ==> ByteLen(s[..i]) != k
    decreases |s|
  {
    if k != 0 && s != [] && Utf8Len(s[0]) <= k {
      PrefixAtByteNoneIff(s[1..], k - Utf8Len(s[0]));
      forall i | 1 <= i <= |s|
        ensures ByteLen(s[..i]) == Utf8Len(s[0]) + ByteLen(s[1..][..i - 1])
      {
        assert s[..i][1..] == s[1..][..i - 1];
      }
      if PrefixAtByte(s, k).None? {
        forall i | 0 <= i <= |s|
          ensures ByteLen(s[..i]) != k
        {
          if 1 <= i {
            assert i - 1 <= |s[1..]|;
          }
        }
      } else {
        var p := PrefixAtByte(s, k).value;
        assert ByteLen(s[..|p|]) == k;
      }
    } else if k != 0 {
      forall i | 0 <= i <= |s|
        ensures ByteLen(s[..i]) != k
      {
        if 1 <= i {
          assert s[..i][1..] == s[1..][..i - 1];
          ByteLenAtLeastLength(s[1..][..i - 1]);
        }
      }
    } else {
      assert ByteLen(s[..0]) == 0;
    }
  }

  /** The longest prefix of `s` with at most `k` bytes: the cut at the last character boundary not after `k`. */
  function FloorPrefix(s: string, k: nat): string
    decreases |s|
  {
    if s == [] || Utf8Len(s[0]) > k then [] else [s[0]] + FloorPrefix(s[1..], k - Utf8Len(s[0]))
  }

  /** FloorPrefix is a prefix, fits in `k` bytes, and the next character would not fit. */
  lemma {:induction false} FloorPrefixSpec(s: string, k: nat)
    ensures var p := FloorPrefix(s, k);
      && |p| <= |s| && p == s[..|p|] && ByteLen(p) <= k
      && (|p| < |s| ==> ByteLen(p) + Utf8Len(s[|p|]) > k)
    decreases |s|
  {
    if s != [] && Utf8Len(s[0]) <= k {
      FloorPrefixSpec(s[1..], k - Utf8Len(s[0]));
      var q := FloorPrefix(s[1..], k - Utf8Len(s[0]));
      assert ([s[0]] + q)[1..] == q;
      assert [s[0]] + q == s[..1 + |q|];
    }
  }

  /** Where the exact cut exists it is the floor cut. */
  lemma {:induction false} PrefixAtByteIsFloor(s: string, k: nat)
    requires PrefixAtByte(s, k).Some?
    ensures PrefixAtByte(s, k).value == FloorPrefix(s, k)
    decreases |s|
  {
    if k == 0 {
      if s != [] {
        assert Utf8Len(s[0]) > k;
      }
    } else {
      PrefixAtByteIsFloor(s[1..], k - Utf8Len(s[0]));
    }
  }

  /**
   * The preview as the code writes it; None where the slice panics. Text
   * within 50 bytes is kept whole; longer text is cut after exactly 50 bytes,
   * which fails exactly when byte 50 is not a character boundary.
   */
  function LogPreviewAsWritten(text: string): (r: Option<string>)
    ensures ByteLen(text) <= PreviewBytes ==> r == Some(text)
    ensures r.None? <==> ByteLen(text) > PreviewBytes && PrefixAtByte(text, PreviewBytes).None?
    ensures r.Some? && ByteLen(text) > PreviewBytes ==>
      exists i :: 0 <= i < |text| && r.value == text[..i] + Ellipsis && ByteLen(text[..i]) == PreviewBytes
  {
    if ByteLen(text) > PreviewBytes then
      match PrefixAtByte(text, PreviewBytes)
      case None => None
      case Some(p) =>
        assert text[..|text|] == text;
        Some(p + Ellipsis)
    else Some(text)
  }

  /** The preview cut at the last character boundary within 50 bytes. */
  function LogPreview(text: string): string
  {
    if ByteLen(text) > PreviewBytes then FloorPrefix(text, PreviewBytes) + Ellipsis else text
  }

  /**
   * The corrected preview is the whole text when it fits in 50 bytes, and
   * otherwise the longest prefix of at most 50 bytes followed by "...".
   */
  lemma LogPreviewSpec(text: string)
    ensures ByteLen(text) <= PreviewBytes ==> LogPreview(text) == text
    ensures ByteLen(text) > PreviewBytes ==>
      exists i :: 0 <= i < |text| && LogPreview(text) == text[..i] + Ellipsis
        && ByteLen(text[..i]) <= PreviewBytes < ByteLen(text[..i + 1])
  {
    if ByteLen(text) > PreviewBytes {
      FloorPrefixSpec(text, PreviewBytes);
      var p := FloorPrefix(text, PreviewBytes);
      var i := |p|;
      assert text[..|text|] == text;
      assert i < |text|;
      assert text[..i + 1] == p + [text[i]];
      ByteLenAppend(p, [text[i]]);
      assert ByteLen([text[i]]) == Utf8Len(text[i]);
    }
  }

  /** Whenever the code as written does not panic it gives the corrected preview. */
  lemma LogPreviewAgrees(text: string)
    requires LogPreviewAsWritten(text).Some?
    ensures LogPreviewAsWritten(text) == Some(LogPreview(text))
  {
    if ByteLen(text) > PreviewBytes {
      PrefixAtByteIsFloor(text, PreviewBytes);
    }
  }

  /** On ASCII text every byte offset is a boundary, so the code as written never panics. */
  lemma {:induction false} AsciiNeverPanics(text: string)
    requires forall i :: 0 <= i < |text| ==> text[i] as int < 0x80
    ensures LogPreviewAsWritten(text).Some?
  {
    if ByteLen(text) > PreviewBytes {
      AsciiByteLen(text);
      assert ByteLen(text[..PreviewBytes]) == PreviewBytes by {
        AsciiByteLen(text[..PreviewBytes]);
      }
      PrefixAtByteNoneIff(text, PreviewBytes);
    }
  }

  lemma {:induction false} AsciiByteLen(s: string)
    requires forall i :: 0 <= i < |s| ==> s[i] as int < 0x80
    ensures ByteLen(s) == |s|
    decreases |s|
  {
    if s != [] {
      AsciiByteLen(s[1..]);
    }
  }

  lemma {:induction false} ThreeByteLen(s: string)
    requires forall i :: 0 <= i < |s| ==> Utf8Len(s[i]) == 3
    ensures ByteLen(s) == 3 * |s|
    decreases |s|
  {
    if s != [] {
      ThreeByteLen(s[1..]);
    }
  }

  /** In a string of three-byte characters only multiples of three are boundaries. */
  lemma {:induction false} ThreeByteNoBoundary(s: string, k: nat)
    requires forall i :: 0 <= i < |s| ==> Utf8Len(s[i]) == 3
    requires k % 3 != 0
    ensures PrefixAtByte(s, k).None?
    decreases |s|
  {
    if s != [] && 3 <= k {
      ThreeByteNoBoundary(s[1..], k - 3);
    }
  }

  /**
   * Seventeen CJK characters are 51 bytes, so the preview branch is taken,
   * and byte 50 falls inside the last character: the code as written
   * panics, while the corrected preview keeps sixteen characters.
   */
  lemma CjkPreviewPanics()
    ensures var text := seq(17, _ => '你');
      LogPreviewAsWritten(text).None? && LogPreview(text) == seq(16, _ => '你') + Ellipsis
  {
    var text := seq(17, _ => '你');
    ThreeByteLen(text);
    ThreeByteNoBoundary(text, PreviewBytes);
    FloorPrefixSpec(text, PreviewBytes);
    var p := FloorPrefix(text, PreviewBytes);
    ThreeByteLen(p);
    assert p == seq(16, _ => '你');
  }
}
