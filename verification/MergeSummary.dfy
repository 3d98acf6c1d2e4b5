// The outcome of a merge against our side: the final values and the printed counts.
module MergeSummary {
  import opened Wrappers
  import opened ThreeWay

  function Present(all: map<string, Option<string>>): Plain {
    map k | k in all && all[k].Some? :: all[k].value
  }

  ghost function AddedKeys(ours: Plain, all: map<string, Option<string>>): set<string> {
    set k | k in all && k !in ours && all[k].Some?
  }

  ghost function ChangedKeys(ours: Plain, all: map<string, Option<string>>): set<string> {
    set k | k in all && k in ours && all[k].Some? && all[k].value != ours[k]
  }

  ghost function RemovedKeys(ours: Plain, all: map<string, Option<string>>): set<string> {
    set k | k in all && k in ours && all[k].None?
  }

  lemma Sizes<T>(now: set<T>, before: set<T>, added: set<T>, removed: set<T>)
    requires removed <= before && added !! before && now == (before - removed) + added
    ensures |now| == |before| + |added| - |removed|
  {}

  /** The printed counts add up, and all are zero exactly when nothing changed. */
  lemma SummaryAddsUp(ours: Plain, all: map<string, Option<string>>)
    requires ours.Keys <= all.Keys
    ensures |Present(all)| == |ours| + |AddedKeys(ours, all)| - |RemovedKeys(ours, all)|
    ensures AddedKeys(ours, all) == ChangedKeys(ours, all) == RemovedKeys(ours, all) == {} <==> Present(all) == ours
  {
    var added, removed := AddedKeys(ours, all), RemovedKeys(ours, all);
    assert Present(all).Keys == (ours.Keys - removed) + added;
    Sizes(Present(all).Keys, ours.Keys, added, removed);
    IdleIffSame(ours, all);
  }

  lemma IdleIffSame(ours: Plain, all: map<string, Option<string>>)
    requires ours.Keys <= all.Keys
    ensures AddedKeys(ours, all) == ChangedKeys(ours, all) == RemovedKeys(ours, all) == {} <==> Present(all) == ours
  {
    if AddedKeys(ours, all) == ChangedKeys(ours, all) == RemovedKeys(ours, all) == {} {
      forall k ensures Get(Present(all), k) == Get(ours, k) {
        assert k !in AddedKeys(ours, all) && k !in ChangedKeys(ours, all) && k !in RemovedKeys(ours, all);
      }
      SameGets(Present(all), ours);
    }
  }

  datatype Summary = Summary(workingSet: Plain, added: nat, changed: nat, removed: nat)

  /** The counts are those of the keys only the new map has, only the old one has, and both with other
      values. */
  ghost predicate Counts(s: Summary, before: Plain, after: Plain) {
    && s.added == |set k | k in after && k !in before|
    && s.removed == |set k | k in before && k !in after|
    && s.changed == |set k | k in before && k in after && after[k] != before[k]|
  }

  lemma CountedKeys(ours: Plain, all: map<string, Option<string>>, s: Summary)
    requires ours.Keys <= all.Keys
    requires s.added == |AddedKeys(ours, all)| && s.changed == |ChangedKeys(ours, all)|
    requires s.removed == |RemovedKeys(ours, all)|
    ensures Counts(s, ours, Present(all))
  {
    var after := Present(all);
    assert AddedKeys(ours, all) == set k | k in after && k !in ours;
    assert RemovedKeys(ours, all) == set k | k in ours && k !in after;
    assert ChangedKeys(ours, all) == set k | k in ours && k in after && after[k] != ours[k];
  }

  /** One key of the outcome against ours. */
  function Tally(s: Summary, key: string, mine: Option<string>, value: Option<string>): Summary {
    match (mine, value)
    case (None, Some(v)) => s.(workingSet := s.workingSet[key := v], added := s.added + 1)
    case (Some(o), Some(v)) =>
      s.(workingSet := s.workingSet[key := v], changed := s.changed + if o != v then 1 else 0)
    case (Some(_), None) => s.(removed := s.removed + 1)
    case (None, None) => s
  }

  /** The final values, and how many keys were added, changed and removed against ours. */
  method Summarise(ours: Plain, all: map<string, Option<string>>) returns (s: Summary)
    ensures s.workingSet == Present(all)
    ensures s.added == |AddedKeys(ours, all)| && s.changed == |ChangedKeys(ours, all)|
              && s.removed == |RemovedKeys(ours, all)|
  {
    s := Summary(map[], 0, 0, 0);
    var todo := all.Keys;
    NoneCounted(ours, all);
    while todo != {}
      invariant todo <= all.Keys
      invariant s == Counted(ours, all, todo)
      decreases todo
    {
      var key :| key in todo;
      CountNext(ours, all, todo, key);
      s := Tally(s, key, Get(ours, key), all[key]);
      todo := todo - {key};
    }
    AllCounted(ours, all);
  }

  /** The summary of all keys but those still to do. */
  ghost function Counted(ours: Plain, all: map<string, Option<string>>, todo: set<string>): Summary {
    Summary(Present(all - todo), |AddedKeys(ours, all) - todo|, |ChangedKeys(ours, all) - todo|,
      |RemovedKeys(ours, all) - todo|)
  }

  lemma CountOne(wanted: set<string>, todo: set<string>, key: string)
    requires key in todo
    ensures |wanted - (todo - {key})| == |wanted - todo| + if key in wanted then 1 else 0
  {
    if key in wanted {
      assert wanted - (todo - {key}) == (wanted - todo) + {key};
    } else {
      assert wanted - (todo - {key}) == wanted - todo;
    }
  }

  lemma PresentNext(all: map<string, Option<string>>, todo: set<string>, key: string)
    requires key in all && key in todo
    ensures Present(all - (todo - {key})) == if all[key].Some? then Present(all - todo)[key := all[key].value]
              else Present(all - todo)
  {}

  lemma KeyKind(ours: Plain, all: map<string, Option<string>>, key: string)
    requires key in all
    ensures key in AddedKeys(ours, all) <==> Get(ours, key).None? && all[key].Some?
    ensures key in ChangedKeys(ours, all) <==> Get(ours, key).Some? && all[key].Some? && Get(ours, key) != all[key]
    ensures key in RemovedKeys(ours, all) <==> Get(ours, key).Some? && all[key].None?
  {}

  lemma NoneCounted(ours: Plain, all: map<string, Option<string>>)
    ensures Counted(ours, all, all.Keys) == Summary(map[], 0, 0, 0)
  {}

  lemma CountNext(ours: Plain, all: map<string, Option<string>>, todo: set<string>, key: string)
    requires key in all && key in todo
    ensures Counted(ours, all, todo - {key}) == Tally(Counted(ours, all, todo), key, Get(ours, key), all[key])
  {
    var s := Counted(ours, all, todo);
    var a, c, d := AddedKeys(ours, all), ChangedKeys(ours, all), RemovedKeys(ours, all);
    KeyKind(ours, all, key);
    CountOne(a, todo, key);
    CountOne(c, todo, key);
    CountOne(d, todo, key);
    PresentNext(all, todo, key);
    TallyIsCount(s, key, Get(ours, key), all[key], |a - (todo - {key})|, |c - (todo - {key})|, |d - (todo - {key})|);
  }

  lemma TallyIsCount(
    s: Summary, key: string, mine: Option<string>, value: Option<string>, added: nat, changed: nat, removed: nat)
    requires added == s.added + if mine.None? && value.Some? then 1 else 0
    requires changed == s.changed + if mine.Some? && value.Some? && mine != value then 1 else 0
    requires removed == s.removed + if mine.Some? && value.None? then 1 else 0
    ensures Tally(s, key, mine, value) ==
            Summary(if value.Some? then s.workingSet[key := value.value] else s.workingSet, added, changed, removed)
  {}

  lemma AllCounted(ours: Plain, all: map<string, Option<string>>)
    ensures Counted(ours, all, {}) ==
            Summary(Present(all), |AddedKeys(ours, all)|, |ChangedKeys(ours, all)|, |RemovedKeys(ours, all)|)
  {}
}
