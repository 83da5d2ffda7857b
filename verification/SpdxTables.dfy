/** The SPDX license list, as far as license rules know it: deprecated ids with what
    replaces them, and the exceptions that may follow WITH. */
module SpdxTables {
  import opened Ascii
  import opened License
  import opened Options

  const Spdx: Tables := Tables(Replacements, Exceptions)

  /** The ids the list knows in several version forms. */
  const Versioned: seq<string> := [
    "AGPL-1.0", "AGPL-3.0", "GFDL-1.1", "GFDL-1.2", "GFDL-1.3", "GPL-1.0", "GPL-2.0", "GPL-3.0", "LGPL-2.0", "LGPL-2.1", "LGPL-3.0"
  ]

  /** An id without `-only` or `-or-later`, which stands for its `-only` form. */
  function Plain(id: string): (string, string, Option<string>) { (id, id + "-only", None) }

  const Replacements: seq<(string, string, Option<string>)> :=
    seq(|Versioned|, i requires 0 <= i < |Versioned| => Plain(Versioned[i])) + Renamed

  // The exceptions that some deprecated ids imply.
  const AUTOCONF_2 := "Autoconf-exception-2.0"
  const BISON := "Bison-exception-2.2"
  const CLASSPATH := "Classpath-exception-2.0"
  const FONT := "Font-exception-2.0"
  const GCC_2 := "GCC-exception-2.0"
  const AUTOCONF_3 := "Autoconf-exception-3.0"
  const GCC_3 := "GCC-exception-3.1"
  const ECOS := "eCos-exception-2.0"
  const WXWINDOWS := "WxWindows-exception-3.1"

  const Renamed: seq<(string, string, Option<string>)> := [
    ("GPL-2.0-with-autoconf-exception", "GPL-2.0-only", Some(AUTOCONF_2)),
    ("GPL-2.0-with-bison-exception", "GPL-2.0-only", Some(BISON)),
    ("GPL-2.0-with-classpath-exception", "GPL-2.0-only", Some(CLASSPATH)),
    ("GPL-2.0-with-font-exception", "GPL-2.0-only", Some(FONT)),
    ("GPL-2.0-with-GCC-exception", "GPL-2.0-only", Some(GCC_2)),
    ("GPL-3.0-with-autoconf-exception", "GPL-3.0-only", Some(AUTOCONF_3)),
    ("GPL-3.0-with-GCC-exception", "GPL-3.0-only", Some(GCC_3)),
    ("eCos-2.0", "GPL-2.0-or-later", Some(ECOS)),
    ("wxWindows", "LGPL-2.0-or-later", Some(WXWINDOWS)),
    ("BSD-2-Clause-FreeBSD", "BSD-2-Clause", None),
    ("BSD-2-Clause-NetBSD", "BSD-2-Clause", None),
    ("bzip2-1.0.5", "bzip2-1.0.6", None),
    ("Nunit", "zlib-acknowledgement", None),
    ("StandardML-NJ", "SMLNJ", None)
  ]

  /** In the order of the renamed ids that imply them. */
  const Implied: seq<string> := [AUTOCONF_2, BISON, CLASSPATH, FONT, GCC_2, AUTOCONF_3, GCC_3, ECOS, WXWINDOWS]

  const Exceptions: seq<string> := Implied + Others

  const Others: seq<string> := [
    "389-exception", "Asterisk-exception", "Asterisk-linking-protocols-exception", "Autoconf-exception-generic",
    "Autoconf-exception-generic-3.0", "Autoconf-exception-macro", "Bison-exception-1.24", "Bootloader-exception",
    "CGAL-linking-exception", "Classpath-exception-2.0-short", "CLISP-exception-2.0", "cryptsetup-OpenSSL-exception",
    "Digia-Qt-LGPL-exception-1.1", "DigiRule-FOSS-exception", "erlang-otp-linking-exception",
    "Fawkes-Runtime-exception", "FLTK-exception", "fmt-exception", "freertos-exception-2.0", "GCC-exception-2.0-note",
    "Gmsh-exception", "GNAT-exception", "GNOME-examples-exception", "GNU-compiler-exception",
    "gnu-javamail-exception", "GPL-3.0-389-ds-base-exception", "GPL-3.0-interface-exception",
    "GPL-3.0-linking-exception", "GPL-3.0-linking-source-exception", "GPL-CC-1.0", "GStreamer-exception-2005",
    "GStreamer-exception-2008", "harbour-exception", "i2p-gpl-java-exception", "Independent-modules-exception",
    "KiCad-libraries-exception", "LGPL-3.0-linking-exception", "libpri-OpenH323-exception", "Libtool-exception",
    "Linux-syscall-note", "LLGPL", "LLVM-exception", "LZMA-exception", "mif-exception", "mxml-exception",
    "Nokia-Qt-exception-1.1", "OCaml-LGPL-linking-exception", "OCCT-exception-1.0", "OpenJDK-assembly-exception-1.0",
    "openvpn-openssl-exception", "PCRE2-exception", "polyparse-exception", "PS-or-PDF-font-exception-20170817",
    "QPL-1.0-INRIA-2004-exception", "Qt-GPL-exception-1.0", "Qt-LGPL-exception-1.1", "Qwt-exception-1.0",
    "romic-exception", "RRDtool-FLOSS-exception-2.0", "SANE-exception", "SHL-2.0", "SHL-2.1", "stunnel-exception",
    "SWI-exception", "Swift-exception", "Texinfo-exception", "u-boot-exception-2.0", "UBDL-exception",
    "Universal-FOSS-exception-1.0", "vsftpd-openssl-exception", "x11vnc-openssl-exception"
  ]

  lemma OtherEnding(a: string, b: string)
    requires a != "" && b != "" && LowerChar(a[|a| - 1]) != LowerChar(b[|b| - 1])
    ensures !SameIgnoringCase(a, b)
  {
    assert |a| == |b| ==> Lower(a)[|a| - 1] != Lower(b)[|b| - 1];
  }

  lemma {:induction false} Unlisted(table: seq<(string, string, Option<string>)>, id: string)
    requires id != "" && forall i :: 0 <= i < |table| ==>
      table[i].0 != "" && LowerChar(table[i].0[|table[i].0| - 1]) != LowerChar(id[|id| - 1])
    ensures Deprecated(table, id).None?
  {
    if table != [] {
      assert table[0].0 != "";
      OtherEnding(table[0].0, id);
      Unlisted(table[1..], id);
    }
  }

  lemma {:induction false} ListedAt(table: seq<(string, string, Option<string>)>, i: nat)
    requires i < |table| && forall j :: 0 <= j < i ==> !SameIgnoringCase(table[j].0, table[i].0)
    ensures Deprecated(table, table[i].0) == Some((table[i].1, table[i].2))
  {
    if i > 0 {
      ListedAt(table[1..], i - 1);
    }
  }

  lemma VersionedAreWords(id: string)
    requires id in Versioned
    ensures IsWord(id) && !HasSuffix(id, "+")
  {
  }

  /** What tells them apart: the first letter, both digits of the version and the length. */
  function Marks(id: string): (char, char, char, nat)
    requires |id| >= 3
  {
    (LowerChar(id[0]), LowerChar(id[|id| - 3]), LowerChar(id[|id| - 1]), |id|)
  }

  const VersionedMarks: seq<(char, char, char, nat)> := [
    ('a', '1', '0', 8), ('a', '3', '0', 8), ('g', '1', '1', 8), ('g', '1', '2', 8), ('g', '1', '3', 8), ('g', '1', '0', 7),
    ('g', '2', '0', 7), ('g', '3', '0', 7), ('l', '2', '0', 8), ('l', '2', '1', 8), ('l', '3', '0', 8)
  ]

  lemma VersionedMarksAre(i: nat)
    requires i < |Versioned|
    ensures |Versioned[i]| >= 3 && Marks(Versioned[i]) == VersionedMarks[i] && '0' <= VersionedMarks[i].2 <= '9'
  {
  }

  lemma OtherMarks(a: string, b: string)
    requires |a| >= 3 && |b| >= 3 && Marks(a) != Marks(b)
    ensures !SameIgnoringCase(a, b)
  {
    if |a| == |b| {
      assert Lower(a)[0] != Lower(b)[0] || Lower(a)[|a| - 3] != Lower(b)[|a| - 3] || Lower(a)[|a| - 1] != Lower(b)[|a| - 1];
    }
  }

  lemma VersionedDiffer(j: nat, i: nat)
    requires j < i < |Versioned|
    ensures !SameIgnoringCase(Versioned[j], Versioned[i])
  {
    VersionedMarksAre(j);
    VersionedMarksAre(i);
    assert VersionedMarks[j] != VersionedMarks[i];
    OtherMarks(Versioned[j], Versioned[i]);
  }

  lemma RenamedEndings(i: nat)
    requires i < |Renamed|
    ensures Renamed[i].0 != "" && Renamed[i].0[|Renamed[i].0| - 1] in "n0sD5tJ"
  {
  }

  lemma NoEntryIsExplicit(i: nat)
    requires i < |Replacements|
    ensures Replacements[i].0 != "" && LowerChar(Replacements[i].0[|Replacements[i].0| - 1]) !in "yr"
  {
    if i < |Versioned| {
      VersionedMarksAre(i);
    } else {
      RenamedEndings(i - |Versioned|);
    }
  }

  /** The explicit forms of an id are no deprecated ids. */
  lemma FormsAreCurrent(id: string, form: string)
    requires form == "-only" || form == "-or-later"
    ensures Deprecated(Spdx.deprecated, id + form).None?
  {
    assert (id + form)[|id + form| - 1] == form[|form| - 1];
    forall i | 0 <= i < |Replacements|
      ensures Replacements[i].0 != "" && LowerChar(Replacements[i].0[|Replacements[i].0| - 1]) != LowerChar(form[|form| - 1])
    {
      NoEntryIsExplicit(i);
    }
    Unlisted(Replacements, id + form);
  }

  /** Every GNU licence of the list: its plain form, a deprecated spelling, its `+` form
      and both explicit forms are one family, and what each of them stands for. */
  lemma GnuFormsAreOneFamily(id: string, form: string)
    requires id in Versioned && (form == "" || form == "+" || form == "-only" || form == "-or-later")
    ensures SameFamily(Spdx, id + form, id)
    ensures NormalizeId(Spdx, id + form) ==
            (Lower(id) + (if form == "" || form == "-only" then "-only" else "-or-later"), None)
  {
    var i :| 0 <= i < |Versioned| && Versioned[i] == id;
    forall j | 0 <= j < i ensures !SameIgnoringCase(Replacements[j].0, Replacements[i].0) {
      VersionedDiffer(j, i);
    }
    ListedAt(Replacements, i);
    VersionedAreWords(id);
    FormsAreWords();
    Joined(id, "-only");
    WordsAreTrimmed(id);
    assert NormalizeId(Spdx, id) == (Lower(id) + "-only", None);
    FamilyOfForm(Lower(id), "-only");
    if form == "-only" || form == "-or-later" {
      FormsAreCurrent(id, form);
      VersionForm(Spdx, id, form);
    }
    VersionFormsAreOneFamily(Spdx, id, form);
    assert form == "" ==> id + form == id;
  }

  // ---- The exceptions that deprecated ids imply ----

  lemma ImpliedAreKnown(i: nat)
    requires i < |Renamed| && Renamed[i].2.Some?
    ensures Renamed[i].2.value in Exceptions
  {
    assert i < |Implied| && Renamed[i].2.value == Implied[i];
  }

  lemma {:induction false} DeprecatedIsListed(table: seq<(string, string, Option<string>)>, id: string) returns (i: nat)
    requires Deprecated(table, id).Some?
    ensures i < |table| && Deprecated(table, id) == Some((table[i].1, table[i].2))
  {
    i := 0;
    if !SameIgnoringCase(table[0].0, id) {
      i := DeprecatedIsListed(table[1..], id);
      i := i + 1;
    }
  }

  /** Whatever exception a deprecated id implies is one that is known. */
  lemma ImpliedIsKnown(id: string)
    requires Deprecated(Spdx.deprecated, id).Some? && Deprecated(Spdx.deprecated, id).value.1.Some?
    ensures Deprecated(Spdx.deprecated, id).value.1.value in Spdx.exceptions
  {
    var i := DeprecatedIsListed(Replacements, id);
    ImpliedAreKnown(i - |Versioned|);
  }

  lemma OneGroup(id: string)
    requires !SameIgnoringCase(id, "WITH")
    ensures Groups([id], "WITH") == [[id]]
  {
    var ws := [id];
    assert ws[..0] == [] && Groups(ws[..0], "WITH") == [[]];
    var gs := Groups(ws[..0], "WITH");
    assert gs[..0] == [] && gs[0] + [id] == [id];
  }

  lemma OnePart(id: string)
    requires Trim(Join([id])) == id && id != ""
    ensures Parts([[id]]) == [id]
  {
    var gs := [[id]];
    assert gs[..0] == [] && gs[|gs| - 1] == [id] && Parts(gs[..0]) == [];
  }

  lemma OneWordIsOnePart(id: string)
    requires IsWord(id) && !SameIgnoringCase(id, "WITH")
    ensures Split(id, "WITH") == [id] && Words(id) == [id]
  {
    WordsOfJoined([id]);
    JoinedIsTrimmed([id]);
    OneGroup(id);
    OnePart(id);
  }

  lemma NormalizedImpliesKnown(id: string)
    requires NormalizeId(Spdx, id).1.Some?
    ensures NormalizeId(Spdx, id).1.value in Spdx.exceptions
  {
    ImpliedIsKnown(if HasSuffix(Trim(id), "+") then TrimEnd(Trim(id)[..|Trim(id)| - 1]) else Trim(id));
  }

  lemma ImpliedException(id: string)
    requires IsWord(id) && !SameIgnoringCase(id, "WITH")
    ensures var term, implied := ParseTerm(Spdx, id), NormalizeId(Spdx, id).1;
      !term.malformed && term.exception == if implied.Some? then Some(Lower(implied.value)) else None
  {
    OneWordIsOnePart(id);
  }

  lemma LoweredIsKnown(term: Term, e: string)
    requires !term.malformed && term.exception == Some(Lower(e)) && e in Spdx.exceptions
    ensures term.ExceptionIsKnown(Spdx)
  {
    assert Lower(Lower(e)) == Lower(e);
  }

  /** So an id by itself is never refused for the exception it implies: as a term it has
      none or a known one. */
  lemma AnIdAloneHasAKnownException(id: string)
    requires IsWord(id) && !SameIgnoringCase(id, "WITH")
    ensures ParseTerm(Spdx, id).ExceptionIsKnown(Spdx)
  {
    ImpliedException(id);
    if NormalizeId(Spdx, id).1.Some? {
      NormalizedImpliesKnown(id);
      LoweredIsKnown(ParseTerm(Spdx, id), NormalizeId(Spdx, id).1.value);
    }
  }
}
