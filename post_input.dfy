// The input file of a post-processing code, as `post_write_input` in
// xespresso/xespresso.py writes it: for each namelist of the package, in
// the order of the built-in table, a `&NAME` line, one line per keyword
// argument the table lists for that namelist (in argument order), and a
// closing `/ ` line; keywords listed under LINE are written as bare
// values instead.

module PostInput {
  import opened PyStr
  import opened PyErr
  import opened PyDict
  import opened Json

  /** The keywords each namelist of each post-processing package accepts. */
  const Namelists: Dict<string, Dict<string, seq<string>>> := [
    ("dos", [("DOS", ["prefix", "outdir", "bz_sum", "ngauss", "degauss", "Emin", "Emax", "DeltaE", "fildo"])]),
    ("pp", [("INPUTPP", ["prefix", "outdir", "filplot", "plot_num", "spin_component", "spin_component", "emin", "emax",
                         "delta_e", "degauss_ldos", "sample_bias", "kpoint", "kband", "lsign", "spin_component", "emin",
                         "emax", "spin_component", "spin_component", "spin_component", "spin_component"]),
            ("PLOT", ["nfile", "filepp", "weight", "iflag", "output_format", "fileout", "interpolation", "e1", "x0",
                      "nx", "e1", "e2", "x0", "nx", "ny", "e1", "e2", "e3", "x0", "nx", "ny", "nz", "radius", "nx", "ny"])]),
    ("projwfc", [("PROJWFC", ["prefix", "outdir", "ngauss", "degauss", "Emin", "Emax", "DeltaE", "lsym", "pawproj",
                              "filpdos", "filproj", "lwrite_overlaps", "lbinary_data", "kresolveddos", "tdosinboxes",
                              "n_proj_boxes", "irmin(3,n_proj_boxes)", "irmax(3,n_proj_boxes)", "plotboxes"])]),
    ("hp", [("INPUTHP", ["prefix", "outdir", "iverbosity", "max_seconds", "nq1", "nq2", "nq3", "skip_equivalence_q",
                         "determine_num_pert_only", "find_atpert", "docc_thr", "skip_type", "equiv_type",
                         "perturb_only_atom", "start_q", "last_q", "sum_pertq", "compute_hp", "conv_thr_chi",
                         "thresh_init", "ethr_nscf", "niter_max", "alpha_mix(i)", "nmix", "num_neigh", "lmin", "rmax"])]),
    ("bands", [("BANDS", ["prefix", "outdir", "filband", "spin_component", "lsigma", "lp", "filp", "lsym",
                          "no_overlap", "plot_2d", "firstk", "lastk"])]),
    ("ph", [("INPUTPH", ["amass", "outdir", "prefix", "niter_ph", "tr2_ph", "alpha_mix(niter)", "nmix_ph", "verbosity",
                         "reduce_io", "max_seconds", "fildyn", "fildrho", "fildvscf", "epsil", "lrpa", "lnoloc", "trans",
                         "lraman", "eth_rps", "eth_ns", "dek", "recover", "low_directory_check", "only_init", "qplot",
                         "q2d", "q_in_band_form", "electron_phonon", "el_ph_nsigma", "el_ph_sigma", "ahc_dir",
                         "ahc_nbnd", "ahc_nbndskip", "skip_upperfan", "lshift_q", "zeu", "zue", "elop", "fpol", "ldisp",
                         "nogg", "asr", "ldiag", "lqdir", "search_sym", "nq1", "nq2", "nq3", "nk1", "nk2", "nk3", "k1",
                         "k2", "k3", "diagonalization", "read_dns_bare", "ldvscf_interpolate", "wpot_dir",
                         "do_long_range", "do_charge_neutral", "start_irr", "last_irr", "nat_todo", "modenum",
                         "start_q", "last_q", "dvscf_star", "drho_star"]),
            ("LINE", ["xq", "atom"])]),
    ("dynmat", [("INPUT", ["fildyn", "q", "amass", "asr", "axis", "lperm", "lplasma", "filout", "fileig", "filmol",
                           "filxsf", "loto_2d", "el_ph_nsig", "el_ph_sigma"])]),
    ("matdyn", [("INPUT", ["flfrc", "asr", "dos", "nk1", "nk2", "nk3", "deltaE", "ndos", "fldos", "flfrq", "flvec",
                           "fleig", "fldvn", "at", "l1", "l2", "l3", "ntyp", "amass", "readtau", "fltau", "la2F",
                           "q_in_band_form", "q_in_cryst_coord", "eigen_similarity", "fd", "na_ifc", "nosym",
                           "loto_2d", "loto_disable"])]),
    ("q2r", [("INPUT", ["fildyn", "flfrc", "zasr", "loto_2d"])])
  ]

  /** `'{0:10s}'.format(s)`: left-justified in a field of ten characters. */
  function Pad(s: string): (r: string)
    ensures |r| == if |s| < 10 then 10 else |s|
    ensures r[..|s|] == s && forall i :: |s| <= i < |r| ==> r[i] == ' '
    decreases 10 - |s|
  {
    if |s| >= 10 then s else Pad(s + " ")
  }

  /** The line of one entry of a dictionary-valued keyword: `  key(sub) = value, `. */
  function SubLine(key: string, sub: string, v: Value): string
  {
    if v.VStr? then "  " + key + "(" + sub + ") = \"" + v.s + "\", \n"
    else "  " + key + "(" + sub + ") = " + Show(v) + ", \n"
  }

  /** The lines of a dictionary-valued keyword, one per entry in order. */
  function SubLines(key: string, entries: Dict<string, Value>): (r: seq<string>)
    ensures |r| == |entries|
    ensures forall i :: 0 <= i < |entries| ==> r[i] == SubLine(key, entries[i].0, entries[i].1)
  {
    if entries == [] then [] else [SubLine(key, entries[0].0, entries[0].1)] + SubLines(key, entries[1..])
  }

  /** The lines of one keyword inside a namelist. */
  function EntryLines(key: string, v: Value): seq<string>
  {
    match v
    case VDict(entries) => SubLines(key, entries)
    case VStr(s) => ["  " + Pad(key) + " =  \"" + s + "\" \n"]
    case _ => ["  " + Pad(key) + " =  " + Show(v) + " \n"]
  }

  /** The keyword arguments the namelist lists, in argument order. */
  function Only(kwargs: Dict<string, Value>, listed: seq<string>): (r: Dict<string, Value>)
  {
    if kwargs == [] then []
    else (if kwargs[0].0 in listed then [kwargs[0]] else []) + Only(kwargs[1..], listed)
  }

  /** `Only` keeps exactly the arguments whose keyword the section lists. */
  lemma {:induction false} OnlyKeeps(kwargs: Dict<string, Value>, listed: seq<string>)
    ensures forall e :: e in Only(kwargs, listed) <==> e in kwargs && e.0 in listed
  {
    if kwargs != [] {
      OnlyKeeps(kwargs[1..], listed);
      assert forall e :: e in kwargs <==> e == kwargs[0] || e in kwargs[1..];
    }
  }

  lemma {:induction false} OnlyConcat(a: Dict<string, Value>, b: Dict<string, Value>, listed: seq<string>)
    ensures Only(a + b, listed) == Only(a, listed) + Only(b, listed)
  {
    if a != [] {
      assert (a + b)[0] == a[0];
      assert (a + b)[1..] == a[1..] + b;
      OnlyConcat(a[1..], b, listed);
    } else {
      assert a + b == b;
    }
  }

  /** `Only` keeps the argument order: what it keeps of a prefix of the arguments is a prefix of what it keeps. */
  lemma OnlyInOrder(kwargs: Dict<string, Value>, listed: seq<string>, i: nat)
    requires i <= |kwargs|
    ensures Only(kwargs[..i], listed) <= Only(kwargs, listed)
  {
    assert kwargs == kwargs[..i] + kwargs[i..];
    OnlyConcat(kwargs[..i], kwargs[i..], listed);
  }

  /** The lines of every entry of an argument list, in order. */
  function AllEntryLines(kwargs: Dict<string, Value>): seq<string>
  {
    if kwargs == [] then [] else EntryLines(kwargs[0].0, kwargs[0].1) + AllEntryLines(kwargs[1..])
  }

  /** The bare-value lines of a LINE block. */
  function BareLines(kwargs: Dict<string, Value>): (r: seq<string>)
    ensures |r| == |kwargs|
    ensures forall i :: 0 <= i < |kwargs| ==> r[i] == "  " + Show(kwargs[i].1) + " \n"
  {
    if kwargs == [] then [] else ["  " + Show(kwargs[0].1) + " \n"] + BareLines(kwargs[1..])
  }

  /** The block one section of the table produces. */
  function Block(section: string, listed: seq<string>, kwargs: Dict<string, Value>): seq<string>
  {
    if section != "LINE" then ["&" + section + "\n"] + AllEntryLines(Only(kwargs, listed)) + ["/ \n"]
    else BareLines(Only(kwargs, listed))
  }

  /** The blocks of all sections of a package, in table order. */
  function Blocks(sections: Dict<string, seq<string>>, kwargs: Dict<string, Value>): seq<string>
  {
    if sections == [] then [] else Block(sections[0].0, sections[0].1, kwargs) + Blocks(sections[1..], kwargs)
  }

  /** What `post_write_input(package, **kwargs)` writes: the file's path and its lines, or KeyError for an unknown package. */
  function PostSpec(directory: string, prefix: string, package: string, kwargs: Dict<string, Value>)
    : (r: Result<(string, seq<string>)>)
  {
    match Get(Namelists, package)
    case None => Err(Exc("KeyError", "'" + package + "'"))
    case Some(sections) => Ok((PathJoin(directory, prefix + "." + package + "i"), Blocks(sections, kwargs)))
  }

  /** The lines that open a namelist. */
  function Headers(lines: seq<string>): seq<string>
  {
    if lines == [] then []
    else (if |lines[0]| > 0 && lines[0][0] == '&' then [lines[0]] else []) + Headers(lines[1..])
  }

  lemma {:induction false} HeadersConcat(a: seq<string>, b: seq<string>)
    ensures Headers(a + b) == Headers(a) + Headers(b)
  {
    if a != [] {
      assert (a + b)[0] == a[0];
      assert (a + b)[1..] == a[1..] + b;
      HeadersConcat(a[1..], b);
      var x := if |a[0]| > 0 && a[0][0] == '&' then [a[0]] else [];
      assert x + (Headers(a[1..]) + Headers(b)) == (x + Headers(a[1..])) + Headers(b);
    } else {
      assert a + b == b;
    }
  }

  /** Every line of a keyword starts with two spaces, so none opens a namelist. */
  lemma {:induction false} EntriesHaveNoHeader(kwargs: Dict<string, Value>)
    ensures Headers(AllEntryLines(kwargs)) == []
  {
    if kwargs != [] {
      var k, v := kwargs[0].0, kwargs[0].1;
      HeadersConcat(EntryLines(k, v), AllEntryLines(kwargs[1..]));
      EntriesHaveNoHeader(kwargs[1..]);
      if v.VDict? {
        SubLinesHaveNoHeader(k, v.entries);
      }
    }
  }

  lemma {:induction false} SubLinesHaveNoHeader(key: string, entries: Dict<string, Value>)
    ensures Headers(SubLines(key, entries)) == []
  {
    if entries != [] {
      SubLinesHaveNoHeader(key, entries[1..]);
    }
  }

  lemma {:induction false} BareHaveNoHeader(kwargs: Dict<string, Value>)
    ensures Headers(BareLines(kwargs)) == []
  {
    if kwargs != [] {
      BareHaveNoHeader(kwargs[1..]);
    }
  }

  /** The namelist headers the table asks for: one `&NAME` per section other than LINE, in table order. */
  function Expected(sections: Dict<string, seq<string>>): seq<string>
  {
    if sections == [] then []
    else (if sections[0].0 != "LINE" then ["&" + sections[0].0 + "\n"] else []) + Expected(sections[1..])
  }

  /**
   * The namelists of the written file are exactly the table's sections
   * other than LINE, each once and in table order, whatever the keyword
   * arguments are.
   */
  lemma {:induction false} BlocksHeaders(sections: Dict<string, seq<string>>, kwargs: Dict<string, Value>)
    ensures Headers(Blocks(sections, kwargs)) == Expected(sections)
  {
    if sections != [] {
      var (name, listed) := sections[0];
      var only := Only(kwargs, listed);
      HeadersConcat(Block(name, listed, kwargs), Blocks(sections[1..], kwargs));
      BlocksHeaders(sections[1..], kwargs);
      if name != "LINE" {
        EntriesHaveNoHeader(only);
        HeadersConcat(["&" + name + "\n"], AllEntryLines(only));
        HeadersConcat(["&" + name + "\n"] + AllEntryLines(only), ["/ \n"]);
      } else {
        BareHaveNoHeader(only);
      }
    }
  }

  /**
   * The outcome of `post_write_input`: KeyError exactly for a package the
   * table lacks; otherwise the file is `<directory>/<prefix>.<package>i`
   * and its namelists are the package's sections in table order.
   */
  lemma PostCases(directory: string, prefix: string, package: string, kwargs: Dict<string, Value>)
    ensures var r := PostSpec(directory, prefix, package, kwargs);
      (r.Err? <==> !HasKey(Namelists, package)) &&
      (r.Err? ==> r.exc == Exc("KeyError", "'" + package + "'")) &&
      (r.Ok? ==> r.value.0 == PathJoin(directory, prefix + "." + package + "i") &&
                 Headers(r.value.1) == Expected(Get(Namelists, package).value))
  {
    if HasKey(Namelists, package) {
      BlocksHeaders(Get(Namelists, package).value, kwargs);
    }
  }

  // ---------------------------------------------------------------
  // The writing loops
  // ---------------------------------------------------------------

  /** One keyword: a line per entry of a dictionary value, else one line. */
  method WriteEntry(key: string, v: Value) returns (lines: seq<string>)
    ensures lines == EntryLines(key, v)
  {
    if v.VDict? {
      lines := [];
      var i := 0;
      while i < |v.entries|
        invariant 0 <= i <= |v.entries|
        invariant lines == SubLines(key, v.entries[..i])
      {
        assert v.entries[..i + 1] == v.entries[..i] + [v.entries[i]];
        SubLinesAppend(key, v.entries[..i], v.entries[i]);
        var (sub, x) := v.entries[i];
        if x.VStr? {
          lines := lines + ["  " + key + "(" + sub + ") = \"" + x.s + "\", \n"];
        } else {
          lines := lines + ["  " + key + "(" + sub + ") = " + Show(x) + ", \n"];
        }
        i := i + 1;
      }
      assert v.entries[..i] == v.entries;
    } else if v.VStr? {
      lines := ["  " + Pad(key) + " =  \"" + v.s + "\" \n"];
    } else {
      lines := ["  " + Pad(key) + " =  " + Show(v) + " \n"];
    }
  }

  lemma SubLinesAppend(key: string, entries: Dict<string, Value>, e: (string, Value))
    ensures SubLines(key, entries + [e]) == SubLines(key, entries) + [SubLine(key, e.0, e.1)]
  {
  }

  lemma {:induction false} OnlyAppend(kwargs: Dict<string, Value>, e: (string, Value), listed: seq<string>)
    ensures Only(kwargs + [e], listed) == Only(kwargs, listed) + (if e.0 in listed then [e] else [])
  {
    if kwargs != [] {
      assert (kwargs + [e])[1..] == kwargs[1..] + [e];
      OnlyAppend(kwargs[1..], e, listed);
    } else {
      assert [e][1..] == [];
    }
  }

  lemma {:induction false} AllEntryLinesAppend(kwargs: Dict<string, Value>, e: (string, Value))
    ensures AllEntryLines(kwargs + [e]) == AllEntryLines(kwargs) + EntryLines(e.0, e.1)
  {
    if kwargs != [] {
      assert (kwargs + [e])[1..] == kwargs[1..] + [e];
      AllEntryLinesAppend(kwargs[1..], e);
    } else {
      assert [e][1..] == [];
    }
  }

  lemma BareLinesAppend(kwargs: Dict<string, Value>, e: (string, Value))
    ensures BareLines(kwargs + [e]) == BareLines(kwargs) + ["  " + Show(e.1) + " \n"]
  {
  }

  /** A namelist section: its header, the loop over the keyword arguments it lists, and its terminator. */
  method WriteNamelist(section: string, listed: seq<string>, kwargs: Dict<string, Value>) returns (lines: seq<string>)
    requires section != "LINE"
    ensures lines == Block(section, listed, kwargs)
  {
    var body: seq<string> := [];
    var i := 0;
    while i < |kwargs|
      invariant 0 <= i <= |kwargs|
      invariant body == AllEntryLines(Only(kwargs[..i], listed))
    {
      assert kwargs[..i + 1] == kwargs[..i] + [kwargs[i]];
      OnlyAppend(kwargs[..i], kwargs[i], listed);
      var (key, value) := kwargs[i];
      if key in listed {
        AllEntryLinesAppend(Only(kwargs[..i], listed), kwargs[i]);
        var more := WriteEntry(key, value);
        body := body + more;
      } else {
        assert Only(kwargs[..i], listed) + [] == Only(kwargs[..i], listed);
      }
      i := i + 1;
    }
    assert kwargs[..i] == kwargs;
    lines := ["&" + section + "\n"] + body + ["/ \n"];
  }

  /** The LINE section: one bare value per keyword argument it lists. */
  method WriteBare(listed: seq<string>, kwargs: Dict<string, Value>) returns (lines: seq<string>)
    ensures lines == Block("LINE", listed, kwargs)
  {
    lines := [];
    var i := 0;
    while i < |kwargs|
      invariant 0 <= i <= |kwargs|
      invariant lines == BareLines(Only(kwargs[..i], listed))
    {
      assert kwargs[..i + 1] == kwargs[..i] + [kwargs[i]];
      OnlyAppend(kwargs[..i], kwargs[i], listed);
      var (key, value) := kwargs[i];
      if key in listed {
        BareLinesAppend(Only(kwargs[..i], listed), kwargs[i]);
        lines := lines + ["  " + Show(value) + " \n"];
      } else {
        assert Only(kwargs[..i], listed) + [] == Only(kwargs[..i], listed);
      }
      i := i + 1;
    }
    assert kwargs[..i] == kwargs;
  }

  /** The loop over the sections of a package, in table order. */
  method WriteSections(sections: Dict<string, seq<string>>, kwargs: Dict<string, Value>) returns (lines: seq<string>)
    ensures lines == Blocks(sections, kwargs)
  {
    lines := [];
    var i := 0;
    while i < |sections|
      invariant 0 <= i <= |sections|
      invariant lines == Blocks(sections[..i], kwargs)
    {
      assert sections[..i + 1] == sections[..i] + [sections[i]];
      BlocksAppend(sections[..i], sections[i], kwargs);
      var (section, listed) := sections[i];
      var block;
      if section != "LINE" {
        block := WriteNamelist(section, listed, kwargs);
      } else {
        block := WriteBare(listed, kwargs);
      }
      lines := lines + block;
      i := i + 1;
    }
    assert sections[..i] == sections;
  }

  lemma {:induction false} BlocksAppend(sections: Dict<string, seq<string>>, s: (string, seq<string>), kwargs: Dict<string, Value>)
    ensures Blocks(sections + [s], kwargs) == Blocks(sections, kwargs) + Block(s.0, s.1, kwargs)
  {
    if sections != [] {
      assert (sections + [s])[1..] == sections[1..] + [s];
      BlocksAppend(sections[1..], s, kwargs);
    } else {
      assert [s][1..] == [];
    }
  }

  /** `post_write_input`: the table lookup, then the loop over the package's sections. */
  method PostWriteInput(directory: string, prefix: string, package: string, kwargs: Dict<string, Value>)
    returns (r: Result<(string, seq<string>)>)
    ensures r == PostSpec(directory, prefix, package, kwargs)
  {
    var found := Get(Namelists, package);
    if found.None? {
      return Err(Exc("KeyError", "'" + package + "'"));
    }
    var filename := PathJoin(directory, prefix + "." + package + "i");
    var lines := WriteSections(found.value, kwargs);
    r := Ok((filename, lines));
  }
}
