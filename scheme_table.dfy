/** The fixed table of metro schemes (`Scheme.DEFAULT_SCHEMES`) and the alias index that
    `Scheme.getIdByAlias` folds out of it on first use and caches in `Scheme._idByAlias`. */
module SchemeTable {
  import opened Wrappers

  /** The per-city numeric identifier that names the scheme resource. */
  type SchemeId = nat

  /** One row of the table; only the fields the widget reads are kept. */
  datatype SchemeEntry = SchemeEntry(id: SchemeId, alias: string)

  function DefaultSchemes(): (table: seq<SchemeEntry>)
    ensures |table| == 5
    ensures forall i, j :: 0 <= i < j < |table| ==> table[i].alias != table[j].alias && table[i].id != table[j].id
  {
    [ SchemeEntry(1, "moscow"),
      SchemeEntry(2, "spb"),
      SchemeEntry(8, "kiev"),
      SchemeEntry(9, "kharkov"),
      SchemeEntry(13, "minsk") ]
  }

  predicate HasAlias(schemes: seq<SchemeEntry>, alias: string)
  {
    exists k :: 0 <= k < |schemes| && schemes[k].alias == alias
  }

  /** The `reduce` over the table: entry by entry, in order, the entry's id is written
      under its alias into the accumulated dictionary, a later entry overwriting an earlier one. */
  function IndexAliases(schemes: seq<SchemeEntry>, memo: map<string, SchemeId>): (index: map<string, SchemeId>)
    ensures forall a :: a in index <==> a in memo || HasAlias(schemes, a)
    decreases |schemes|
  {
    if schemes == [] then memo
    else IndexAliases(schemes[1..], memo[schemes[0].alias := schemes[0].id])
  }

  /** The dictionary built from `DEFAULT_SCHEMES`, starting from the empty object. */
  function AliasIndex(): map<string, SchemeId>
  {
    IndexAliases(DefaultSchemes(), map[])
  }

  /** `_idByAlias[alias]`: the id, or None where JavaScript yields `undefined`. */
  function ResolveAlias(alias: string): (id: Option<SchemeId>)
    ensures id.Some? <==> HasAlias(DefaultSchemes(), alias)
  {
    var index := AliasIndex();
    if alias in index then Some(index[alias]) else None
  }

  /** An alias no entry carries keeps whatever the accumulator already held for it. */
  lemma {:induction false} IndexAliasesUntouched(schemes: seq<SchemeEntry>, memo: map<string, SchemeId>, alias: string)
    requires !HasAlias(schemes, alias)
    ensures alias in IndexAliases(schemes, memo) <==> alias in memo
    ensures alias in memo ==> IndexAliases(schemes, memo)[alias] == memo[alias]
    decreases |schemes|
  {
    if schemes != [] {
      assert schemes[0].alias != alias;
      assert !HasAlias(schemes[1..], alias) by {
        forall k | 0 <= k < |schemes[1..]| ensures schemes[1..][k].alias != alias {
          assert schemes[1..][k] == schemes[k + 1];
        }
      }
      IndexAliasesUntouched(schemes[1..], memo[schemes[0].alias := schemes[0].id], alias);
    }
  }

  /** An entry that no later entry overrides determines the id stored under its alias. */
  lemma {:induction false} IndexAliasesAt(schemes: seq<SchemeEntry>, memo: map<string, SchemeId>, k: nat)
    requires k < |schemes|
    requires forall j :: k < j < |schemes| ==> schemes[j].alias != schemes[k].alias
    ensures schemes[k].alias in IndexAliases(schemes, memo)
    ensures IndexAliases(schemes, memo)[schemes[k].alias] == schemes[k].id
    decreases |schemes|
  {
    var memo' := memo[schemes[0].alias := schemes[0].id];
    if k == 0 {
      assert !HasAlias(schemes[1..], schemes[0].alias) by {
        forall j | 0 <= j < |schemes[1..]| ensures schemes[1..][j].alias != schemes[0].alias {
          assert schemes[1..][j] == schemes[j + 1];
        }
      }
      IndexAliasesUntouched(schemes[1..], memo', schemes[0].alias);
    } else {
      assert schemes[1..][k - 1] == schemes[k];
      IndexAliasesAt(schemes[1..], memo', k - 1);
    }
  }

  /** An alias resolves exactly when some row carries it, and then to that row's id. */
  lemma ResolveAliasMatchesTable(alias: string)
    ensures ResolveAlias(alias).Some? <==> HasAlias(DefaultSchemes(), alias)
    ensures forall k :: 0 <= k < |DefaultSchemes()| && DefaultSchemes()[k].alias == alias ==>
              ResolveAlias(alias) == Some(DefaultSchemes()[k].id)
  {
    var table := DefaultSchemes();
    if HasAlias(table, alias) {
      forall k | 0 <= k < |table| && table[k].alias == alias
        ensures ResolveAlias(alias) == Some(table[k].id)
      {
        IndexAliasesAt(table, map[], k);
      }
    } else {
      IndexAliasesUntouched(table, map[], alias);
    }
  }

  /** The five cities of the table and their ids. */
  lemma KnownAliases()
    ensures ResolveAlias("moscow") == Some(1)
    ensures ResolveAlias("spb") == Some(2)
    ensures ResolveAlias("kiev") == Some(8)
    ensures ResolveAlias("kharkov") == Some(9)
    ensures ResolveAlias("minsk") == Some(13)
  {
    var table := DefaultSchemes();
    ResolveAliasMatchesTable("moscow");
    assert table[0].alias == "moscow";
    ResolveAliasMatchesTable("spb");
    assert table[1].alias == "spb";
    ResolveAliasMatchesTable("kiev");
    assert table[2].alias == "kiev";
    ResolveAliasMatchesTable("kharkov");
    assert table[3].alias == "kharkov";
    ResolveAliasMatchesTable("minsk");
    assert table[4].alias == "minsk";
  }

  /** Any other alias resolves to no id rather than to an error. */
  lemma UnknownAliasResolvesToNone(alias: string)
    requires alias !in {"moscow", "spb", "kiev", "kharkov", "minsk"}
    ensures ResolveAlias(alias) == None
  {
    var table := DefaultSchemes();
    assert !HasAlias(table, alias) by {
      forall k | 0 <= k < |table| ensures table[k].alias != alias {
        assert table[k].alias in {"moscow", "spb", "kiev", "kharkov", "minsk"};
      }
    }
    ResolveAliasMatchesTable(alias);
  }

  /** Two different known cities never share a scheme id. */
  lemma DistinctAliasesDistinctIds(a: string, b: string)
    requires ResolveAlias(a).Some? && a != b
    ensures ResolveAlias(a) != ResolveAlias(b)
  {
    var table := DefaultSchemes();
    ResolveAliasMatchesTable(a);
    ResolveAliasMatchesTable(b);
    var i :| 0 <= i < |table| && table[i].alias == a;
    if ResolveAlias(b).Some? {
      var j :| 0 <= j < |table| && table[j].alias == b;
      assert table[i].id != table[j].id;
    }
  }

  /** What reading `_idByAlias[alias]` gives in JavaScript. The dictionary is a plain object
      literal, so a key it does not own is still looked up on Object.prototype. */
  datatype JsValue = Undefined | Number(id: SchemeId) | Inherited(name: string)

  /** Property names every plain object inherits from Object.prototype. */
  const ObjectPrototypeNames: set<string> :=
    { "constructor", "toString", "toLocaleString", "valueOf", "hasOwnProperty",
      "isPrototypeOf", "propertyIsEnumerable", "__proto__", "__defineGetter__",
      "__defineSetter__", "__lookupGetter__", "__lookupSetter__" }

  /** The lookup as the code performs it: own key, then the prototype chain. */
  function LookupAsWritten(index: map<string, SchemeId>, alias: string): (v: JsValue)
    ensures v.Number? <==> alias in index
    ensures v == Undefined <==> alias !in index && alias !in ObjectPrototypeNames
    ensures v.Number? ==> v.id == index[alias]
    ensures v.Inherited? ==> v.name == alias
  {
    if alias in index then Number(index[alias])
    else if alias in ObjectPrototypeNames then Inherited(alias)
    else Undefined
  }

  /** As written, an alias that names an Object.prototype member resolves to that member
      rather than to `undefined`, although no scheme carries it; the own-key lookup
      `ResolveAlias` gives no id for it. */
  lemma InheritedAliasIsNotUndefined(alias: string)
    requires alias in ObjectPrototypeNames
    ensures LookupAsWritten(AliasIndex(), alias) == Inherited(alias)
    ensures ResolveAlias(alias) == None
  {
    UnknownAliasResolvesToNone(alias);
  }

  /** Outside the Object.prototype names, the lookup as written and the own-key lookup
      agree: the stored id for a known city, `undefined` for any other alias. */
  lemma AsWrittenAgreesOutsidePrototype(alias: string)
    requires alias !in ObjectPrototypeNames
    ensures LookupAsWritten(AliasIndex(), alias) ==
              if ResolveAlias(alias).Some? then Number(ResolveAlias(alias).value) else Undefined
  {
    var v := LookupAsWritten(AliasIndex(), alias);
    if alias in AliasIndex() {
      assert v == Number(AliasIndex()[alias]);
    } else {
      assert v == Undefined;
    }
  }

  /** The `Scheme` constructor function's static state: the alias dictionary, absent until
      the first `getIdByAlias`. */
  class SchemeDirectory {
    var idByAlias: Option<map<string, SchemeId>>

    /** A filled cache holds exactly the fold of the table. */
    ghost predicate Valid()
      reads this
    {
      idByAlias.Some? ==> idByAlias.value == AliasIndex()
    }

    constructor ()
      ensures Valid() && idByAlias == None
    {
      idByAlias := None;
    }

    /** Builds the dictionary on the first call only, then looks the alias up in it. */
    method GetIdByAlias(alias: string) returns (id: Option<SchemeId>)
      requires Valid()
      modifies this
      ensures Valid() && idByAlias == Some(AliasIndex())
      ensures old(idByAlias).Some? ==> idByAlias == old(idByAlias)
      ensures id == ResolveAlias(alias)
    {
      if idByAlias.None? {
        idByAlias := Some(IndexAliases(DefaultSchemes(), map[]));
      }
      var index := idByAlias.value;
      id := if alias in index then Some(index[alias]) else None;
    }
  }
}
