/** The search box over the sample tasks (app/page.tsx:31-40 applied to
    data/mockData.ts): the query "test" keeps the tasks with ids 1, 2, 4, 5
    and 9. Task 3 ("Hello") and the three Instances tasks mention it in no
    searched field. */
module MockSearch {
  import opened Types
  import opened Strings
  import opened Lists
  import opened Query
  import opened Store
  import opened MockData
  import opened SampleText

  lemma LowerTest()
    ensures Lower("test") == "test"
  {
  }

  // ---- The verdict on each task ----

  lemma SearchHitsT1()
    ensures MatchesSearch(T1, "test")
  {
    LowerTest();
    TestLeads("test", T1.title, " task");
  }

  lemma SearchHitsT2()
    ensures MatchesSearch(T2, "test")
  {
    LowerTest();
    TestLeads("test", T2.title, " ticket for account care");
  }

  lemma SearchHitsT4()
    ensures MatchesSearch(T4, "test")
  {
    LowerTest();
    TestTrails("test", T4.title, "Shadow ", "testing");
  }

  lemma SearchHitsT5()
    ensures MatchesSearch(T5, "test")
  {
    LowerTest();
    TestTrails("test", T5.title, "qa ", "test");
  }

  lemma SearchHitsT9()
    ensures MatchesSearch(T9, "test")
  {
    LowerTest();
    TestLeads("test", T9.title, "ing component A");
  }

  lemma SearchMissesT3()
    ensures !MatchesSearch(T3, "test")
  {
    LowerTest();
    var q := "test";
    NoTestInAvf(q, T3.customerName);
    NoTestInT3TaskId(q, T3.taskId);
    NoTestInT3Title(q, T3.title);
    NoTestInT3Description(q, T3.description);
    NoTestInT3Owner(q, T3.owner);
  }

  lemma SearchMissesT6()
    ensures !MatchesSearch(T6, "test")
  {
    LowerTest();
    var q := "test";
    NoTestInInstances(q, T6.customerName);
    NoTestInT6TaskId(q, T6.taskId);
    NoTestInT6Title(q, T6.title);
    NoTestInT6Description(q, T6.description);
    NoTestInT6Owner(q, T6.owner);
  }

  lemma SearchMissesT7()
    ensures !MatchesSearch(T7, "test")
  {
    LowerTest();
    var q := "test";
    NoTestInInstances(q, T7.customerName);
    NoTestInT7TaskId(q, T7.taskId);
    NoTestInT7Title(q, T7.title);
    NoTestInT7Description(q, T7.description);
    NoTestInT7Owner(q, T7.owner);
  }

  lemma SearchMissesT8()
    ensures !MatchesSearch(T8, "test")
  {
    LowerTest();
    var q := "test";
    NoTestInInstances(q, T8.customerName);
    NoTestInT8TaskId(q, T8.taskId);
    NoTestInT8Title(q, T8.title);
    NoTestInT8Description(q, T8.description);
    NoTestInT8Owner(q, T8.owner);
  }

  /** Tasks 1, 2, 4, 5 and 9 match; 3, 6, 7 and 8 do not. */
  const SearchKeep: seq<bool> := [true, true, false, true, true, false, false, false, true]

  lemma SearchVerdictAt(i: int)
    requires 0 <= i < |MockTasks|
    ensures |SearchKeep| == |MockTasks|
    ensures MatchesSearch(MockTasks[i], "test") == SearchKeep[i]
  {
    var t := MockTasks[i];
    if i == 0 { assert t == T1; SearchHitsT1(); }
    else if i == 1 { assert t == T2; SearchHitsT2(); }
    else if i == 2 { assert t == T3; SearchMissesT3(); }
    else if i == 3 { assert t == T4; SearchHitsT4(); }
    else if i == 4 { assert t == T5; SearchHitsT5(); }
    else if i == 5 { assert t == T6; SearchMissesT6(); }
    else if i == 6 { assert t == T7; SearchMissesT7(); }
    else if i == 7 { assert t == T8; SearchMissesT8(); }
    else { assert t == T9; SearchHitsT9(); }
  }

  lemma SearchVerdicts()
    ensures |SearchKeep| == |MockTasks|
    ensures forall i :: 0 <= i < |MockTasks| ==>
      PassesFor("test", AllTasks, NoFilters)(MockTasks[i]) == SearchKeep[i]
  {
    SearchVerdictAt(0);
    forall i | 0 <= i < |MockTasks|
      ensures PassesFor("test", AllTasks, NoFilters)(MockTasks[i]) == SearchKeep[i]
    {
      SearchVerdictAt(i);
      PassesMeaning(MockTasks[i], "test", AllTasks, NoFilters);
    }
  }

  lemma SearchKept()
    ensures Kept(SeedIds, SearchKeep) == ["1", "2", "4", "5", "9"]
  {
  }

  /** Searching "test" leaves ids 1, 2, 4, 5 and 9, in seed order. */
  lemma SearchScenario()
    ensures Ids(Narrow(MockTasks, "test", AllTasks, NoFilters)) == ["1", "2", "4", "5", "9"]
  {
    SearchVerdicts();
    NarrowIsFilter(MockTasks, "test", AllTasks, NoFilters);
    IdsOfFilter(MockTasks, PassesFor("test", AllTasks, NoFilters), SearchKeep);
    FixtureShape();
    SearchKept();
  }
}
