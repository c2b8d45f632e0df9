/** Where the word "test" does and does not occur, case-insensitively, in
    the searched fields of the sample tasks of data/mockData.ts. Absence is
    shown piece by piece: an occurrence of the query never straddles a
    character that is not in it, such as a space. */
module SampleText {
  import opened Strings

  // ---- The fields of tasks 3, 6, 7 and 8 do not contain "test" ----

  lemma NoTestInGeneral(q: string, s: string)
    requires q == "test" && s == "General"
    ensures !Contains(Lower(s), q)
  {
    AbsentLetter(s, q, 's');
  }

  lemma NoTestInLowerHello(q: string, s: string)
    requires q == "test" && s == "hello"
    ensures !Contains(Lower(s), q)
  {
    AbsentLetter(s, q, 's');
  }

  lemma NoTestInLowerTask(q: string, s: string)
    requires q == "test" && s == "task"
    ensures !Contains(Lower(s), q)
  {
    AbsentLetter(s, q, 'e');
  }

  lemma NoTestInLowerFor(q: string, s: string)
    requires q == "test" && s == "for"
    ensures !Contains(Lower(s), q)
  {
    AbsentShort(s, q);
  }

  lemma NoTestInLowerCustomer(q: string, s: string)
    requires q == "test" && s == "customer"
    ensures !Contains(Lower(s), q)
  {
    var a, b := "cust", "mer";
    AbsentLetter(a, q, 'e');
    AbsentShort(b, q);
    AbsentAround(s, a, 'o', b, q);
  }

  lemma NoTestInLowerEngagement(q: string, s: string)
    requires q == "test" && s == "engagement"
    ensures !Contains(Lower(s), q)
  {
    AbsentLetter(s, q, 's');
  }

  lemma NoTestInJane(q: string, s: string)
    requires q == "test" && s == "Jane"
    ensures !Contains(Lower(s), q)
  {
    AbsentLetter(s, q, 's');
  }

  lemma NoTestInSmith(q: string, s: string)
    requires q == "test" && s == "Smith"
    ensures !Contains(Lower(s), q)
  {
    AbsentLetter(s, q, 'e');
  }

  lemma NoTestInOffice(q: string, s: string)
    requires q == "test" && s == "Office"
    ensures !Contains(Lower(s), q)
  {
    AbsentLetter(s, q, 's');
  }

  lemma NoTestInHealth(q: string, s: string)
    requires q == "test" && s == "Health"
    ensures !Contains(Lower(s), q)
  {
    AbsentLetter(s, q, 's');
  }

  lemma NoTestInAudit(q: string, s: string)
    requires q == "test" && s == "Audit"
    ensures !Contains(Lower(s), q)
  {
    AbsentLetter(s, q, 's');
  }

  lemma NoTestInDash(q: string, s: string)
    requires q == "test" && s == "-"
    ensures !Contains(Lower(s), q)
  {
    AbsentShort(s, q);
  }

  lemma NoTestInImmediate(q: string, s: string)
    requires q == "test" && s == "Immediate"
    ensures !Contains(Lower(s), q)
  {
    AbsentLetter(s, q, 's');
  }

  lemma NoTestInAction(q: string, s: string)
    requires q == "test" && s == "Action"
    ensures !Contains(Lower(s), q)
  {
    AbsentLetter(s, q, 's');
  }

  lemma NoTestInRequired(q: string, s: string)
    requires q == "test" && s == "Required"
    ensures !Contains(Lower(s), q)
  {
    AbsentLetter(s, q, 's');
  }

  lemma NoTestInUrgent(q: string, s: string)
    requires q == "test" && s == "Urgent"
    ensures !Contains(Lower(s), q)
  {
    AbsentLetter(s, q, 's');
  }

  lemma NoTestInLowerOffice(q: string, s: string)
    requires q == "test" && s == "office"
    ensures !Contains(Lower(s), q)
  {
    AbsentLetter(s, q, 's');
  }

  lemma NoTestInLowerHealth(q: string, s: string)
    requires q == "test" && s == "health"
    ensures !Contains(Lower(s), q)
  {
    AbsentLetter(s, q, 's');
  }

  lemma NoTestInLowerAudit(q: string, s: string)
    requires q == "test" && s == "audit"
    ensures !Contains(Lower(s), q)
  {
    AbsentLetter(s, q, 's');
  }

  lemma NoTestInLowerRequiring(q: string, s: string)
    requires q == "test" && s == "requiring"
    ensures !Contains(Lower(s), q)
  {
    AbsentLetter(s, q, 's');
  }

  lemma NoTestInLowerImmediate(q: string, s: string)
    requires q == "test" && s == "immediate"
    ensures !Contains(Lower(s), q)
  {
    AbsentLetter(s, q, 's');
  }

  lemma NoTestInLowerAttention(q: string, s: string)
    requires q == "test" && s == "attention"
    ensures !Contains(Lower(s), q)
  {
    AbsentLetter(s, q, 's');
  }

  lemma NoTestInLowerAnd(q: string, s: string)
    requires q == "test" && s == "and"
    ensures !Contains(Lower(s), q)
  {
    AbsentShort(s, q);
  }

  lemma NoTestInLowerAction(q: string, s: string)
    requires q == "test" && s == "action"
    ensures !Contains(Lower(s), q)
  {
    AbsentLetter(s, q, 's');
  }

  lemma NoTestInTeam(q: string, s: string)
    requires q == "test" && s == "Team"
    ensures !Contains(Lower(s), q)
  {
    AbsentLetter(s, q, 's');
  }

  lemma NoTestInMetricColon(q: string, s: string)
    requires q == "test" && s == "Metric:"
    ensures !Contains(Lower(s), q)
  {
    AbsentLetter(s, q, 's');
  }

  lemma NoTestInDm(q: string, s: string)
    requires q == "test" && s == "DM"
    ensures !Contains(Lower(s), q)
  {
    AbsentShort(s, q);
  }

  lemma NoTestInData(q: string, s: string)
    requires q == "test" && s == "Data"
    ensures !Contains(Lower(s), q)
  {
    AbsentLetter(s, q, 's');
  }

  lemma NoTestInLowerManagement(q: string, s: string)
    requires q == "test" && s == "management"
    ensures !Contains(Lower(s), q)
  {
    AbsentLetter(s, q, 's');
  }

  lemma NoTestInLowerMetrics(q: string, s: string)
    requires q == "test" && s == "metrics"
    ensures !Contains(Lower(s), q)
  {
    var a, b := "met", "ics";
    AbsentShort(a, q);
    AbsentShort(b, q);
    AbsentAround(s, a, 'r', b, q);
  }

  lemma NoTestInLowerAnalysis(q: string, s: string)
    requires q == "test" && s == "analysis"
    ensures !Contains(Lower(s), q)
  {
    AbsentLetter(s, q, 'e');
  }

  lemma NoTestInLowerReporting(q: string, s: string)
    requires q == "test" && s == "reporting"
    ensures !Contains(Lower(s), q)
  {
    AbsentLetter(s, q, 's');
  }

  lemma NoTestInAnalytics(q: string, s: string)
    requires q == "test" && s == "Analytics"
    ensures !Contains(Lower(s), q)
  {
    AbsentLetter(s, q, 'e');
  }

  lemma NoTestInMetric(q: string, s: string)
    requires q == "test" && s == "Metric"
    ensures !Contains(Lower(s), q)
  {
    AbsentLetter(s, q, 's');
  }

  lemma NoTestInLowerConsumption(q: string, s: string)
    requires q == "test" && s == "consumption"
    ensures !Contains(Lower(s), q)
  {
    AbsentLetter(s, q, 'e');
  }

  lemma NoTestInGt(q: string, s: string)
    requires q == "test" && s == ">"
    ensures !Contains(Lower(s), q)
  {
    AbsentShort(s, q);
  }

  lemma NoTestIn80Percent(q: string, s: string)
    requires q == "test" && s == "80%"
    ensures !Contains(Lower(s), q)
  {
    AbsentShort(s, q);
  }

  lemma NoTestInLowerMetric(q: string, s: string)
    requires q == "test" && s == "metric"
    ensures !Contains(Lower(s), q)
  {
    AbsentLetter(s, q, 's');
  }

  lemma NoTestInLowerHas(q: string, s: string)
    requires q == "test" && s == "has"
    ensures !Contains(Lower(s), q)
  {
    AbsentShort(s, q);
  }

  lemma NoTestInLowerExceeded(q: string, s: string)
    requires q == "test" && s == "exceeded"
    ensures !Contains(Lower(s), q)
  {
    AbsentLetter(s, q, 's');
  }

  lemma NoTestInLowerThreshold(q: string, s: string)
    requires q == "test" && s == "threshold"
    ensures !Contains(Lower(s), q)
  {
    var a, b := "t", "reshold";
    AbsentShort(a, q);
    AbsentLetter(b, q, 't');
    AbsentAround(s, a, 'h', b, q);
  }

  lemma NoTestInOperations(q: string, s: string)
    requires q == "test" && s == "Operations"
    ensures !Contains(Lower(s), q)
  {
    var a, b := "Ope", "ations";
    AbsentShort(a, q);
    AbsentLetter(b, q, 'e');
    AbsentAround(s, a, 'r', b, q);
  }

  lemma NoTestInAvf(q: string, s: string)
    requires q == "test" && s == "AVF"
    ensures !Contains(Lower(s), q)
  {
    AbsentShort(s, q);
  }

  lemma NoTestInT3TaskId(q: string, s: string)
    requires q == "test" && s == "TS-6474"
    ensures !Contains(Lower(s), q)
  {
    AbsentLetter(s, q, 'e');
  }

  lemma NoTestInT3Title(q: string, s: string)
    requires q == "test" && s == "Hello"
    ensures !Contains(Lower(s), q)
  {
    AbsentLetter(s, q, 's');
  }

  lemma NoTestInT3DescriptionUpTo2(q: string, s: string)
    requires q == "test" && s == "General hello"
    ensures !Contains(Lower(s), q)
  {
    var a, b := "General", "hello";
    NoTestInGeneral(q, a);
    NoTestInLowerHello(q, b);
    AbsentAround(s, a, ' ', b, q);
  }

  lemma NoTestInT3DescriptionUpTo3(q: string, s: string)
    requires q == "test" && s == "General hello task"
    ensures !Contains(Lower(s), q)
  {
    var a, b := "General hello", "task";
    NoTestInT3DescriptionUpTo2(q, a);
    NoTestInLowerTask(q, b);
    AbsentAround(s, a, ' ', b, q);
  }

  lemma NoTestInT3DescriptionUpTo4(q: string, s: string)
    requires q == "test" && s == "General hello task for"
    ensures !Contains(Lower(s), q)
  {
    var a, b := "General hello task", "for";
    NoTestInT3DescriptionUpTo3(q, a);
    NoTestInLowerFor(q, b);
    AbsentAround(s, a, ' ', b, q);
  }

  lemma NoTestInT3DescriptionUpTo5(q: string, s: string)
    requires q == "test" && s == "General hello task for customer"
    ensures !Contains(Lower(s), q)
  {
    var a, b := "General hello task for", "customer";
    NoTestInT3DescriptionUpTo4(q, a);
    NoTestInLowerCustomer(q, b);
    AbsentAround(s, a, ' ', b, q);
  }

  lemma NoTestInT3Description(q: string, s: string)
    requires q == "test" && s == "General hello task for customer engagement"
    ensures !Contains(Lower(s), q)
  {
    var a, b := "General hello task for customer", "engagement";
    NoTestInT3DescriptionUpTo5(q, a);
    NoTestInLowerEngagement(q, b);
    AbsentAround(s, a, ' ', b, q);
  }

  lemma NoTestInT3Owner(q: string, s: string)
    requires q == "test" && s == "Jane Smith"
    ensures !Contains(Lower(s), q)
  {
    var a, b := "Jane", "Smith";
    NoTestInJane(q, a);
    NoTestInSmith(q, b);
    AbsentAround(s, a, ' ', b, q);
  }

  lemma NoTestInInstances(q: string, s: string)
    requires q == "test" && s == "Instances"
    ensures !Contains(Lower(s), q)
  {
    var a, b := "Inst", "nces";
    AbsentLetter(a, q, 'e');
    AbsentLetter(b, q, 't');
    AbsentAround(s, a, 'a', b, q);
  }

  lemma NoTestInT6TaskId(q: string, s: string)
    requires q == "test" && s == "TS-6405"
    ensures !Contains(Lower(s), q)
  {
    AbsentLetter(s, q, 'e');
  }

  lemma NoTestInT6TitleUpTo2(q: string, s: string)
    requires q == "test" && s == "Office Health"
    ensures !Contains(Lower(s), q)
  {
    var a, b := "Office", "Health";
    NoTestInOffice(q, a);
    NoTestInHealth(q, b);
    AbsentAround(s, a, ' ', b, q);
  }

  lemma NoTestInT6TitleUpTo3(q: string, s: string)
    requires q == "test" && s == "Office Health Audit"
    ensures !Contains(Lower(s), q)
  {
    var a, b := "Office Health", "Audit";
    NoTestInT6TitleUpTo2(q, a);
    NoTestInAudit(q, b);
    AbsentAround(s, a, ' ', b, q);
  }

  lemma NoTestInT6TitleUpTo4(q: string, s: string)
    requires q == "test" && s == "Office Health Audit -"
    ensures !Contains(Lower(s), q)
  {
    var a, b := "Office Health Audit", "-";
    NoTestInT6TitleUpTo3(q, a);
    NoTestInDash(q, b);
    AbsentAround(s, a, ' ', b, q);
  }

  lemma NoTestInT6TitleUpTo5(q: string, s: string)
    requires q == "test" && s == "Office Health Audit - Immediate"
    ensures !Contains(Lower(s), q)
  {
    var a, b := "Office Health Audit -", "Immediate";
    NoTestInT6TitleUpTo4(q, a);
    NoTestInImmediate(q, b);
    AbsentAround(s, a, ' ', b, q);
  }

  lemma NoTestInT6TitleUpTo6(q: string, s: string)
    requires q == "test" && s == "Office Health Audit - Immediate Action"
    ensures !Contains(Lower(s), q)
  {
    var a, b := "Office Health Audit - Immediate", "Action";
    NoTestInT6TitleUpTo5(q, a);
    NoTestInAction(q, b);
    AbsentAround(s, a, ' ', b, q);
  }

  lemma NoTestInT6Title(q: string, s: string)
    requires q == "test" && s == "Office Health Audit - Immediate Action Required"
    ensures !Contains(Lower(s), q)
  {
    var a, b := "Office Health Audit - Immediate Action", "Required";
    NoTestInT6TitleUpTo6(q, a);
    NoTestInRequired(q, b);
    AbsentAround(s, a, ' ', b, q);
  }

  lemma NoTestInT6DescriptionUpTo2(q: string, s: string)
    requires q == "test" && s == "Urgent office"
    ensures !Contains(Lower(s), q)
  {
    var a, b := "Urgent", "office";
    NoTestInUrgent(q, a);
    NoTestInLowerOffice(q, b);
    AbsentAround(s, a, ' ', b, q);
  }

  lemma NoTestInT6DescriptionUpTo3(q: string, s: string)
    requires q == "test" && s == "Urgent office health"
    ensures !Contains(Lower(s), q)
  {
    var a, b := "Urgent office", "health";
    NoTestInT6DescriptionUpTo2(q, a);
    NoTestInLowerHealth(q, b);
    AbsentAround(s, a, ' ', b, q);
  }

  lemma NoTestInT6DescriptionUpTo4(q: string, s: string)
    requires q == "test" && s == "Urgent office health audit"
    ensures !Contains(Lower(s), q)
  {
    var a, b := "Urgent office health", "audit";
    NoTestInT6DescriptionUpTo3(q, a);
    NoTestInLowerAudit(q, b);
    AbsentAround(s, a, ' ', b, q);
  }

  lemma NoTestInT6DescriptionUpTo5(q: string, s: string)
    requires q == "test" && s == "Urgent office health audit requiring"
    ensures !Contains(Lower(s), q)
  {
    var a, b := "Urgent office health audit", "requiring";
    NoTestInT6DescriptionUpTo4(q, a);
    NoTestInLowerRequiring(q, b);
    AbsentAround(s, a, ' ', b, q);
  }

  lemma NoTestInT6DescriptionUpTo6(q: string, s: string)
    requires q == "test" && s == "Urgent office health audit requiring immediate"
    ensures !Contains(Lower(s), q)
  {
    var a, b := "Urgent office health audit requiring", "immediate";
    NoTestInT6DescriptionUpTo5(q, a);
    NoTestInLowerImmediate(q, b);
    AbsentAround(s, a, ' ', b, q);
  }

  lemma NoTestInT6DescriptionUpTo7(q: string, s: string)
    requires q == "test" && s == "Urgent office health audit requiring immediate attention"
    ensures !Contains(Lower(s), q)
  {
    var a, b := "Urgent office health audit requiring immediate", "attention";
    NoTestInT6DescriptionUpTo6(q, a);
    NoTestInLowerAttention(q, b);
    AbsentAround(s, a, ' ', b, q);
  }

  lemma NoTestInT6DescriptionUpTo8(q: string, s: string)
    requires q == "test" && s == "Urgent office health audit requiring immediate attention and"
    ensures !Contains(Lower(s), q)
  {
    var a, b := "Urgent office health audit requiring immediate attention", "and";
    NoTestInT6DescriptionUpTo7(q, a);
    NoTestInLowerAnd(q, b);
    AbsentAround(s, a, ' ', b, q);
  }

  lemma NoTestInT6Description(q: string, s: string)
    requires q == "test" && s == "Urgent office health audit requiring immediate attention and action"
    ensures !Contains(Lower(s), q)
  {
    var a, b := "Urgent office health audit requiring immediate attention and", "action";
    NoTestInT6DescriptionUpTo8(q, a);
    NoTestInLowerAction(q, b);
    AbsentAround(s, a, ' ', b, q);
  }

  lemma NoTestInT6Owner(q: string, s: string)
    requires q == "test" && s == "Health Team"
    ensures !Contains(Lower(s), q)
  {
    var a, b := "Health", "Team";
    NoTestInHealth(q, a);
    NoTestInTeam(q, b);
    AbsentAround(s, a, ' ', b, q);
  }

  lemma NoTestInT7TaskId(q: string, s: string)
    requires q == "test" && s == "TS-6406"
    ensures !Contains(Lower(s), q)
  {
    AbsentLetter(s, q, 'e');
  }

  lemma NoTestInT7TitleUpTo2(q: string, s: string)
    requires q == "test" && s == "Office Metric:"
    ensures !Contains(Lower(s), q)
  {
    var a, b := "Office", "Metric:";
    NoTestInOffice(q, a);
    NoTestInMetricColon(q, b);
    AbsentAround(s, a, ' ', b, q);
  }

  lemma NoTestInT7TitleUpTo3(q: string, s: string)
    requires q == "test" && s == "Office Metric: DM"
    ensures !Contains(Lower(s), q)
  {
    var a, b := "Office Metric:", "DM";
    NoTestInT7TitleUpTo2(q, a);
    NoTestInDm(q, b);
    AbsentAround(s, a, ' ', b, q);
  }

  lemma NoTestInT7Title(q: string, s: string)
    requires q == "test" && s == "Office Metric: DM Health"
    ensures !Contains(Lower(s), q)
  {
    var a, b := "Office Metric: DM", "Health";
    NoTestInT7TitleUpTo3(q, a);
    NoTestInHealth(q, b);
    AbsentAround(s, a, ' ', b, q);
  }

  lemma NoTestInT7DescriptionUpTo2(q: string, s: string)
    requires q == "test" && s == "Data management"
    ensures !Contains(Lower(s), q)
  {
    var a, b := "Data", "management";
    NoTestInData(q, a);
    NoTestInLowerManagement(q, b);
    AbsentAround(s, a, ' ', b, q);
  }

  lemma NoTestInT7DescriptionUpTo3(q: string, s: string)
    requires q == "test" && s == "Data management health"
    ensures !Contains(Lower(s), q)
  {
    var a, b := "Data management", "health";
    NoTestInT7DescriptionUpTo2(q, a);
    NoTestInLowerHealth(q, b);
    AbsentAround(s, a, ' ', b, q);
  }

  lemma NoTestInT7DescriptionUpTo4(q: string, s: string)
    requires q == "test" && s == "Data management health metrics"
    ensures !Contains(Lower(s), q)
  {
    var a, b := "Data management health", "metrics";
    NoTestInT7DescriptionUpTo3(q, a);
    NoTestInLowerMetrics(q, b);
    AbsentAround(s, a, ' ', b, q);
  }

  lemma NoTestInT7DescriptionUpTo5(q: string, s: string)
    requires q == "test" && s == "Data management health metrics analysis"
    ensures !Contains(Lower(s), q)
  {
    var a, b := "Data management health metrics", "analysis";
    NoTestInT7DescriptionUpTo4(q, a);
    NoTestInLowerAnalysis(q, b);
    AbsentAround(s, a, ' ', b, q);
  }

  lemma NoTestInT7DescriptionUpTo6(q: string, s: string)
    requires q == "test" && s == "Data management health metrics analysis and"
    ensures !Contains(Lower(s), q)
  {
    var a, b := "Data management health metrics analysis", "and";
    NoTestInT7DescriptionUpTo5(q, a);
    NoTestInLowerAnd(q, b);
    AbsentAround(s, a, ' ', b, q);
  }

  lemma NoTestInT7Description(q: string, s: string)
    requires q == "test" && s == "Data management health metrics analysis and reporting"
    ensures !Contains(Lower(s), q)
  {
    var a, b := "Data management health metrics analysis and", "reporting";
    NoTestInT7DescriptionUpTo6(q, a);
    NoTestInLowerReporting(q, b);
    AbsentAround(s, a, ' ', b, q);
  }

  lemma NoTestInT7Owner(q: string, s: string)
    requires q == "test" && s == "Analytics Team"
    ensures !Contains(Lower(s), q)
  {
    var a, b := "Analytics", "Team";
    NoTestInAnalytics(q, a);
    NoTestInTeam(q, b);
    AbsentAround(s, a, ' ', b, q);
  }

  lemma NoTestInT8TaskId(q: string, s: string)
    requires q == "test" && s == "TS-6407"
    ensures !Contains(Lower(s), q)
  {
    AbsentLetter(s, q, 'e');
  }

  lemma NoTestInT8TitleUpTo2(q: string, s: string)
    requires q == "test" && s == "Office Metric"
    ensures !Contains(Lower(s), q)
  {
    var a, b := "Office", "Metric";
    NoTestInOffice(q, a);
    NoTestInMetric(q, b);
    AbsentAround(s, a, ' ', b, q);
  }

  lemma NoTestInT8TitleUpTo3(q: string, s: string)
    requires q == "test" && s == "Office Metric consumption"
    ensures !Contains(Lower(s), q)
  {
    var a, b := "Office Metric", "consumption";
    NoTestInT8TitleUpTo2(q, a);
    NoTestInLowerConsumption(q, b);
    AbsentAround(s, a, ' ', b, q);
  }

  lemma NoTestInT8TitleUpTo4(q: string, s: string)
    requires q == "test" && s == "Office Metric consumption >"
    ensures !Contains(Lower(s), q)
  {
    var a, b := "Office Metric consumption", ">";
    NoTestInT8TitleUpTo3(q, a);
    NoTestInGt(q, b);
    AbsentAround(s, a, ' ', b, q);
  }

  lemma NoTestInT8Title(q: string, s: string)
    requires q == "test" && s == "Office Metric consumption > 80%"
    ensures !Contains(Lower(s), q)
  {
    var a, b := "Office Metric consumption >", "80%";
    NoTestInT8TitleUpTo4(q, a);
    NoTestIn80Percent(q, b);
    AbsentAround(s, a, ' ', b, q);
  }

  lemma NoTestInT8DescriptionUpTo2(q: string, s: string)
    requires q == "test" && s == "Office metric"
    ensures !Contains(Lower(s), q)
  {
    var a, b := "Office", "metric";
    NoTestInOffice(q, a);
    NoTestInLowerMetric(q, b);
    AbsentAround(s, a, ' ', b, q);
  }

  lemma NoTestInT8DescriptionUpTo3(q: string, s: string)
    requires q == "test" && s == "Office metric consumption"
    ensures !Contains(Lower(s), q)
  {
    var a, b := "Office metric", "consumption";
    NoTestInT8DescriptionUpTo2(q, a);
    NoTestInLowerConsumption(q, b);
    AbsentAround(s, a, ' ', b, q);
  }

  lemma NoTestInT8DescriptionUpTo4(q: string, s: string)
    requires q == "test" && s == "Office metric consumption has"
    ensures !Contains(Lower(s), q)
  {
    var a, b := "Office metric consumption", "has";
    NoTestInT8DescriptionUpTo3(q, a);
    NoTestInLowerHas(q, b);
    AbsentAround(s, a, ' ', b, q);
  }

  lemma NoTestInT8DescriptionUpTo5(q: string, s: string)
    requires q == "test" && s == "Office metric consumption has exceeded"
    ensures !Contains(Lower(s), q)
  {
    var a, b := "Office metric consumption has", "exceeded";
    NoTestInT8DescriptionUpTo4(q, a);
    NoTestInLowerExceeded(q, b);
    AbsentAround(s, a, ' ', b, q);
  }

  lemma NoTestInT8DescriptionUpTo6(q: string, s: string)
    requires q == "test" && s == "Office metric consumption has exceeded 80%"
    ensures !Contains(Lower(s), q)
  {
    var a, b := "Office metric consumption has exceeded", "80%";
    NoTestInT8DescriptionUpTo5(q, a);
    NoTestIn80Percent(q, b);
    AbsentAround(s, a, ' ', b, q);
  }

  lemma NoTestInT8DescriptionUpTo7(q: string, s: string)
    requires q == "test" && s == "Office metric consumption has exceeded 80% threshold"
    ensures !Contains(Lower(s), q)
  {
    var a, b := "Office metric consumption has exceeded 80%", "threshold";
    NoTestInT8DescriptionUpTo6(q, a);
    NoTestInLowerThreshold(q, b);
    AbsentAround(s, a, ' ', b, q);
  }

  lemma NoTestInT8DescriptionUpTo8(q: string, s: string)
    requires q == "test" && s == "Office metric consumption has exceeded 80% threshold requiring"
    ensures !Contains(Lower(s), q)
  {
    var a, b := "Office metric consumption has exceeded 80% threshold", "requiring";
    NoTestInT8DescriptionUpTo7(q, a);
    NoTestInLowerRequiring(q, b);
    AbsentAround(s, a, ' ', b, q);
  }

  lemma NoTestInT8DescriptionUpTo9(q: string, s: string)
    requires q == "test" && s == "Office metric consumption has exceeded 80% threshold requiring immediate"
    ensures !Contains(Lower(s), q)
  {
    var a, b := "Office metric consumption has exceeded 80% threshold requiring", "immediate";
    NoTestInT8DescriptionUpTo8(q, a);
    NoTestInLowerImmediate(q, b);
    AbsentAround(s, a, ' ', b, q);
  }

  lemma NoTestInT8Description(q: string, s: string)
    requires q == "test" && s == "Office metric consumption has exceeded 80% threshold requiring immediate attention"
    ensures !Contains(Lower(s), q)
  {
    var a, b := "Office metric consumption has exceeded 80% threshold requiring immediate", "attention";
    NoTestInT8DescriptionUpTo9(q, a);
    NoTestInLowerAttention(q, b);
    AbsentAround(s, a, ' ', b, q);
  }

  lemma NoTestInT8Owner(q: string, s: string)
    requires q == "test" && s == "Operations Team"
    ensures !Contains(Lower(s), q)
  {
    var a, b := "Operations", "Team";
    NoTestInOperations(q, a);
    NoTestInTeam(q, b);
    AbsentAround(s, a, ' ', b, q);
  }

  // ---- The titles of tasks 1, 2, 4, 5 and 9 do ----

  lemma TestInTest(q: string, s: string)
    requires q == "test" && (s == "Test" || s == "test")
    ensures Contains(Lower(s), q)
  {
    assert Lower(s) == q;
    ContainsIff(Lower(s), q);
    assert OccursAt(Lower(s), q, 0);
  }

  lemma TestInTesting(q: string, s: string)
    requires q == "test" && (s == "Testing" || s == "testing")
    ensures Contains(Lower(s), q)
  {
    var a, b := s[..4], "ing";
    assert s == a + b;
    TestInTest(q, a);
    PresentIn(s, a, b, q);
  }

  /** A title that begins with "Test". */
  lemma TestLeads(q: string, s: string, b: string)
    requires q == "test" && s == "Test" + b
    ensures Contains(Lower(s), q)
  {
    TestInTest(q, "Test");
    PresentIn(s, "Test", b, q);
  }

  /** A title that ends with "test" or "testing". */
  lemma TestTrails(q: string, s: string, a: string, b: string)
    requires q == "test" && (b == "test" || b == "testing") && s == a + b
    ensures Contains(Lower(s), q)
  {
    if b == "test" {
      TestInTest(q, b);
    } else {
      TestInTesting(q, b);
    }
    PresentIn(s, a, b, q);
  }
}
