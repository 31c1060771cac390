/**
 * Mapping a source (SQLite) column name to its destination (PostgreSQL)
 * spelling: the lowercased name is looked up in the table's rename map, and
 * the original spelling is kept when the table or the name has no entry.
 */
module ColumnNames {
  import opened Schema

  /** ASCII lower-casing of one character. */
  function LowerChar(c: char): char
  {
    if 'A' <= c <= 'Z' then (c as int + 32) as char else c
  }

  /** `s.lower()`, restricted to ASCII letters. */
  function Lower(s: string): (r: string)
    ensures |r| == |s|
    ensures forall i :: 0 <= i < |r| ==> !('A' <= r[i] <= 'Z')
    ensures forall i :: 0 <= i < |s| && !('A' <= s[i] <= 'Z') ==> r[i] == s[i]
    ensures forall i :: 0 <= i < |s| && 'A' <= s[i] <= 'Z' ==>
      'a' <= r[i] <= 'z' && r[i] as int - 'a' as int == s[i] as int - 'A' as int
  {
    seq(|s|, i requires 0 <= i < |s| => LowerChar(s[i]))
  }

  lemma LowerIdempotent(s: string)
    ensures Lower(Lower(s)) == Lower(s)
  {
  }

  /** The rename map of `table`: its entry of COLUMN_MAPPINGS, or no renames. */
  function RenamesOf(table: string): map<string, string>
  {
    if table in COLUMN_MAPPINGS then COLUMN_MAPPINGS[table] else map[]
  }

  /** `renames.get(column.lower(), column)`. */
  function Rename(renames: map<string, string>, column: string): string
  {
    if Lower(column) in renames then renames[Lower(column)] else column
  }

  /** `map_column_name`: the destination spelling of source column `column` of `table`. */
  function MapColumnName(table: string, column: string): (r: string)
    ensures table !in COLUMN_MAPPINGS ==> r == column
    ensures table in COLUMN_MAPPINGS && Lower(column) !in COLUMN_MAPPINGS[table] ==> r == column
    ensures table in COLUMN_MAPPINGS && Lower(column) in COLUMN_MAPPINGS[table] ==> r == COLUMN_MAPPINGS[table][Lower(column)]
  {
    Rename(RenamesOf(table), column)
  }

  /** A rename map that only restores letter case changes a name's case only. */
  lemma RenameChangesCaseOnly(renames: map<string, string>, column: string)
    requires CaseOnly(renames)
    ensures Lower(Rename(renames, column)) == Lower(column)
  {
    if Lower(column) in renames {
      LowerIdempotent(column);
    }
  }

  /** Every table's rename map only restores letter case. */
  lemma RenamesOfCaseOnly(table: string)
    ensures CaseOnly(RenamesOf(table))
  {
    if table in COLUMN_MAPPINGS {
      RenamesChangeCaseOnly();
    }
  }

  /** Renaming changes letter case only. */
  lemma MapColumnNameChangesCaseOnly(table: string, column: string)
    ensures Lower(MapColumnName(table, column)) == Lower(column)
  {
    RenamesOfCaseOnly(table);
    RenameChangesCaseOnly(RenamesOf(table), column);
  }

  /** Renaming an already renamed column changes nothing more. */
  lemma MapColumnNameIdempotent(table: string, column: string)
    ensures MapColumnName(table, MapColumnName(table, column)) == MapColumnName(table, column)
  {
    MapColumnNameChangesCaseOnly(table, column);
  }

  /** The entries keyed "latestEvent" (workflow_statistics) and "waitTill"
      (execution_entity) can never be found: every lookup key is lowercased. */
  lemma UnreachableRenameKeys(column: string)
    ensures Lower(column) != "latestEvent" && Lower(column) != "waitTill"
  {
    if |column| == 11 {
      assert Lower(column)[6] != 'E';
    }
    if |column| == 8 {
      assert Lower(column)[4] != 'T';
    }
  }

  // The rename maps change letter case only. The verifier evaluates only a
  // few string literals per proof, so the fact is split by spelling and by
  // table, then assembled in RenamesChangeCaseOnly.

  /** On the keys a lookup can reach (lowercase ones), `m` only restores letter case. */
  ghost predicate CaseOnly(m: map<string, string>)
  {
    forall k | k in m && Lower(k) == k :: Lower(m[k]) == k
  }

  lemma RenamedSpellings0()
    ensures Lower("packageName") == "packagename"
    ensures Lower("installedVersion") == "installedversion"
    ensures Lower("authorName") == "authorname"
    ensures Lower("authorEmail") == "authoremail"
    ensures Lower("latestVersion") == "latestversion"
    ensures Lower("userId") == "userid"
    ensures Lower("providerId") == "providerid"
    ensures Lower("providerType") == "providertype"
  {
  }

  lemma RenamedSpellings1()
    ensures Lower("createdAt") == "createdat"
    ensures Lower("updatedAt") == "updatedat"
    ensures Lower("workflowId") == "workflowid"
    ensures Lower("tagId") == "tagid"
    ensures Lower("rootCount") == "rootcount"
    ensures Lower("webhookPath") == "webhookpath"
    ensures Lower("webhookId") == "webhookid"
    ensures Lower("pathLength") == "pathlength"
  {
  }

  lemma RenamedSpellings2()
    ensures Lower("workflowData") == "workflowdata"
    ensures Lower("versionId") == "versionid"
    ensures Lower("credentialsId") == "credentialsid"
    ensures Lower("projectId") == "projectid"
    ensures Lower("executionId") == "executionid"
    ensures Lower("annotationId") == "annotationid"
    ensures Lower("retryOf") == "retryof"
    ensures Lower("retrySuccessId") == "retrysuccessid"
  {
  }

  lemma RenamedSpellings3()
    ensures Lower("startedAt") == "startedat"
    ensures Lower("stoppedAt") == "stoppedat"
    ensures Lower("customData") == "customdata"
    ensures Lower("parentFolderId") == "parentfolderid"
    ensures Lower("folderId") == "folderid"
    ensures Lower("triggerCount") == "triggercount"
    ensures Lower("pinData") == "pindata"
    ensures Lower("staticData") == "staticdata"
  {
  }

  lemma RenamedSpellings4()
    ensures Lower("metaId") == "metaid"
    ensures Lower("workflowName") == "workflowname"
    ensures Lower("projectName") == "projectname"
    ensures Lower("runCreatedAt") == "runcreatedat"
    ensures Lower("completedAt") == "completedat"
    ensures Lower("errorCode") == "errorcode"
    ensures Lower("errorDetails") == "errordetails"
    ensures Lower("firstName") == "firstname"
  {
  }

  lemma RenamedSpellings5()
    ensures Lower("lastName") == "lastname"
    ensures Lower("personalizationAnswers") == "personalizationanswers"
    ensures Lower("roleSlug") == "roleslug"
    ensures Lower("isPending") == "ispending"
    ensures Lower("mfaSecret") == "mfasecret"
    ensures Lower("mfaEnabled") == "mfaenabled"
    ensures Lower("mfaRecoveryCodes") == "mfarecoverycodes"
    ensures Lower("testRunId") == "testrunid"
  {
  }

  lemma RenamedSpellings6()
    ensures Lower("dataTableId") == "datatableid"
    ensures Lower("scopeSlug") == "scopeslug"
    ensures Lower("apiKey") == "apikey"
    ensures Lower("periodUnit") == "periodunit"
    ensures Lower("periodFrom") == "periodfrom"
    ensures Lower("periodTo") == "periodto"
    ensures Lower("ownerId") == "ownerid"
    ensures Lower("credentialId") == "credentialid"
  {
  }

  lemma RenamedSpellings7()
    ensures Lower("workflowVersionId") == "workflowversionid"
    ensures Lower("dependencyType") == "dependencytype"
    ensures Lower("dependencyKey") == "dependencykey"
    ensures Lower("dependencyInfo") == "dependencyinfo"
    ensures Lower("sessionId") == "sessionid"
    ensures Lower("previousMessageId") == "previousmessageid"
    ensures Lower("revisionOfMessageId") == "revisionofmessageid"
    ensures Lower("retryOfMessageId") == "retryofmessageid"
  {
  }

  lemma RenamesCaseOnly0()
    ensures CaseOnly(INSTALLED_PACKAGES_RENAMES)
    ensures CaseOnly(INSTALLED_NODES_RENAMES)
    ensures CaseOnly(AUTH_IDENTITY_RENAMES)
  {
    RenamedSpellings0();
    RenamedSpellings1();
  }

  lemma RenamesCaseOnly1()
    ensures CaseOnly(AUTH_PROVIDER_SYNC_HISTORY_RENAMES)
    ensures CaseOnly(TAG_ENTITY_RENAMES)
    ensures CaseOnly(WORKFLOWS_TAGS_RENAMES)
    ensures CaseOnly(WORKFLOW_STATISTICS_RENAMES)
  {
    RenamedSpellings0();
    RenamedSpellings1();
    assert Lower("latestEvent")[6] == 'e';
  }

  lemma RenamesCaseOnly2()
    ensures CaseOnly(WEBHOOK_ENTITY_RENAMES)
    ensures CaseOnly(EXECUTION_DATA_RENAMES)
    ensures CaseOnly(WORKFLOW_HISTORY_RENAMES)
  {
    RenamedSpellings1();
    RenamedSpellings2();
  }

  lemma RenamesCaseOnly3()
    ensures CaseOnly(CREDENTIALS_ENTITY_RENAMES)
    ensures CaseOnly(SHARED_CREDENTIALS_RENAMES)
    ensures CaseOnly(SHARED_WORKFLOW_RENAMES)
    ensures CaseOnly(EXECUTION_METADATA_RENAMES)
    ensures CaseOnly(INVALID_AUTH_TOKEN_RENAMES)
    ensures CaseOnly(EXECUTION_ANNOTATIONS_RENAMES)
    ensures CaseOnly(ANNOTATION_TAG_ENTITY_RENAMES)
  {
    RenamedSpellings1();
    RenamedSpellings2();
  }

  lemma RenamesCaseOnly4()
    ensures CaseOnly(EXECUTION_ANNOTATION_TAGS_RENAMES)
    ensures CaseOnly(EXECUTION_ENTITY_RENAMES)
  {
    RenamedSpellings1();
    RenamedSpellings2();
    RenamedSpellings3();
    assert Lower("waitTill")[4] == 't';
  }

  lemma RenamesCaseOnly5()
    ensures CaseOnly(PROCESSED_DATA_RENAMES)
    ensures CaseOnly(FOLDER_RENAMES)
    ensures CaseOnly(FOLDER_TAG_RENAMES)
  {
    RenamedSpellings1();
    RenamedSpellings2();
    RenamedSpellings3();
  }

  lemma RenamesCaseOnly6()
    ensures CaseOnly(WORKFLOW_ENTITY_RENAMES)
  {
    RenamedSpellings1();
    RenamedSpellings2();
    RenamedSpellings3();
  }

  lemma RenamesCaseOnly7()
    ensures CaseOnly(INSIGHTS_METADATA_RENAMES)
  {
    RenamedSpellings1();
    RenamedSpellings2();
    RenamedSpellings4();
  }

  lemma RenamesCaseOnly8()
    ensures CaseOnly(TEST_RUN_RENAMES)
  {
    RenamedSpellings1();
    RenamedSpellings3();
    RenamedSpellings4();
  }

  lemma RenamesCaseOnly9()
    ensures CaseOnly(USER_RENAMES)
  {
    RenamedSpellings1();
    RenamedSpellings4();
    RenamedSpellings5();
  }

  lemma RenamesCaseOnly10()
    ensures CaseOnly(TEST_CASE_EXECUTION_RENAMES)
    ensures CaseOnly(PROJECT_RELATION_RENAMES)
  {
    RenamedSpellings0();
    RenamedSpellings2();
    RenamedSpellings4();
    RenamedSpellings5();
  }

  lemma RenamesCaseOnly11()
    ensures CaseOnly(DATA_TABLE_RENAMES)
    ensures CaseOnly(DATA_TABLE_COLUMN_RENAMES)
  {
    RenamedSpellings0();
    RenamedSpellings1();
    RenamedSpellings2();
    RenamedSpellings5();
    RenamedSpellings6();
  }

  lemma RenamesCaseOnly12()
    ensures CaseOnly(INSIGHTS_RAW_RENAMES)
    ensures CaseOnly(INSIGHTS_BY_PERIOD_RENAMES)
  {
    RenamedSpellings1();
    RenamedSpellings4();
    RenamedSpellings6();
  }

  lemma RenamesCaseOnly13()
    ensures CaseOnly(CHAT_HUB_SESSIONS_RENAMES)
    ensures CaseOnly(WORKFLOW_DEPENDENCY_RENAMES)
  {
    RenamedSpellings1();
    RenamedSpellings6();
    RenamedSpellings7();
  }

  lemma RenamesCaseOnly14()
    ensures CaseOnly(CHAT_HUB_MESSAGES_RENAMES)
  {
    RenamedSpellings1();
    RenamedSpellings2();
    RenamedSpellings7();
  }

  lemma RenamesCaseOnly15()
    ensures CaseOnly(ROLE_SCOPE_RENAMES)
    ensures CaseOnly(USER_API_KEYS_RENAMES)
  {
    RenamedSpellings0();
    RenamedSpellings1();
    RenamedSpellings2();
    RenamedSpellings5();
    RenamedSpellings6();
  }

  /** Every rename map in `m` changes letter case only. */
  ghost predicate AllCaseOnly(m: map<string, map<string, string>>)
  {
    forall t | t in m :: CaseOnly(m[t])
  }

  lemma AddCaseOnly(m: map<string, map<string, string>>, t: string, renames: map<string, string>)
    requires AllCaseOnly(m) && CaseOnly(renames)
    ensures AllCaseOnly(m[t := renames])
  {
  }

  lemma MappingsCaseOnly0()
    ensures AllCaseOnly(map[]["installed_packages" := INSTALLED_PACKAGES_RENAMES]["installed_nodes" := INSTALLED_NODES_RENAMES]["auth_identity" := AUTH_IDENTITY_RENAMES]["auth_provider_sync_history" := AUTH_PROVIDER_SYNC_HISTORY_RENAMES]["tag_entity" := TAG_ENTITY_RENAMES]["workflows_tags" := WORKFLOWS_TAGS_RENAMES]["workflow_statistics" := WORKFLOW_STATISTICS_RENAMES]["webhook_entity" := WEBHOOK_ENTITY_RENAMES]["execution_data" := EXECUTION_DATA_RENAMES]["workflow_history" := WORKFLOW_HISTORY_RENAMES])
  {
    var m: map<string, map<string, string>> := map[];
    RenamesCaseOnly0();
    RenamesCaseOnly1();
    RenamesCaseOnly2();
    AddCaseOnly(m, "installed_packages", INSTALLED_PACKAGES_RENAMES);
    m := m["installed_packages" := INSTALLED_PACKAGES_RENAMES];
    AddCaseOnly(m, "installed_nodes", INSTALLED_NODES_RENAMES);
    m := m["installed_nodes" := INSTALLED_NODES_RENAMES];
    AddCaseOnly(m, "auth_identity", AUTH_IDENTITY_RENAMES);
    m := m["auth_identity" := AUTH_IDENTITY_RENAMES];
    AddCaseOnly(m, "auth_provider_sync_history", AUTH_PROVIDER_SYNC_HISTORY_RENAMES);
    m := m["auth_provider_sync_history" := AUTH_PROVIDER_SYNC_HISTORY_RENAMES];
    AddCaseOnly(m, "tag_entity", TAG_ENTITY_RENAMES);
    m := m["tag_entity" := TAG_ENTITY_RENAMES];
    AddCaseOnly(m, "workflows_tags", WORKFLOWS_TAGS_RENAMES);
    m := m["workflows_tags" := WORKFLOWS_TAGS_RENAMES];
    AddCaseOnly(m, "workflow_statistics", WORKFLOW_STATISTICS_RENAMES);
    m := m["workflow_statistics" := WORKFLOW_STATISTICS_RENAMES];
    AddCaseOnly(m, "webhook_entity", WEBHOOK_ENTITY_RENAMES);
    m := m["webhook_entity" := WEBHOOK_ENTITY_RENAMES];
    AddCaseOnly(m, "execution_data", EXECUTION_DATA_RENAMES);
    m := m["execution_data" := EXECUTION_DATA_RENAMES];
    AddCaseOnly(m, "workflow_history", WORKFLOW_HISTORY_RENAMES);
    m := m["workflow_history" := WORKFLOW_HISTORY_RENAMES];
  }

  lemma MappingsCaseOnly1()
    ensures AllCaseOnly(map[]["installed_packages" := INSTALLED_PACKAGES_RENAMES]["installed_nodes" := INSTALLED_NODES_RENAMES]["auth_identity" := AUTH_IDENTITY_RENAMES]["auth_provider_sync_history" := AUTH_PROVIDER_SYNC_HISTORY_RENAMES]["tag_entity" := TAG_ENTITY_RENAMES]["workflows_tags" := WORKFLOWS_TAGS_RENAMES]["workflow_statistics" := WORKFLOW_STATISTICS_RENAMES]["webhook_entity" := WEBHOOK_ENTITY_RENAMES]["execution_data" := EXECUTION_DATA_RENAMES]["workflow_history" := WORKFLOW_HISTORY_RENAMES]["credentials_entity" := CREDENTIALS_ENTITY_RENAMES]["shared_credentials" := SHARED_CREDENTIALS_RENAMES]["shared_workflow" := SHARED_WORKFLOW_RENAMES]["execution_metadata" := EXECUTION_METADATA_RENAMES]["invalid_auth_token" := INVALID_AUTH_TOKEN_RENAMES]["execution_annotations" := EXECUTION_ANNOTATIONS_RENAMES]["annotation_tag_entity" := ANNOTATION_TAG_ENTITY_RENAMES]["execution_annotation_tags" := EXECUTION_ANNOTATION_TAGS_RENAMES]["execution_entity" := EXECUTION_ENTITY_RENAMES]["processed_data" := PROCESSED_DATA_RENAMES])
  {
    MappingsCaseOnly0();
    var m := map[]["installed_packages" := INSTALLED_PACKAGES_RENAMES]["installed_nodes" := INSTALLED_NODES_RENAMES]["auth_identity" := AUTH_IDENTITY_RENAMES]["auth_provider_sync_history" := AUTH_PROVIDER_SYNC_HISTORY_RENAMES]["tag_entity" := TAG_ENTITY_RENAMES]["workflows_tags" := WORKFLOWS_TAGS_RENAMES]["workflow_statistics" := WORKFLOW_STATISTICS_RENAMES]["webhook_entity" := WEBHOOK_ENTITY_RENAMES]["execution_data" := EXECUTION_DATA_RENAMES]["workflow_history" := WORKFLOW_HISTORY_RENAMES];
    RenamesCaseOnly3();
    RenamesCaseOnly4();
    RenamesCaseOnly5();
    AddCaseOnly(m, "credentials_entity", CREDENTIALS_ENTITY_RENAMES);
    m := m["credentials_entity" := CREDENTIALS_ENTITY_RENAMES];
    AddCaseOnly(m, "shared_credentials", SHARED_CREDENTIALS_RENAMES);
    m := m["shared_credentials" := SHARED_CREDENTIALS_RENAMES];
    AddCaseOnly(m, "shared_workflow", SHARED_WORKFLOW_RENAMES);
    m := m["shared_workflow" := SHARED_WORKFLOW_RENAMES];
    AddCaseOnly(m, "execution_metadata", EXECUTION_METADATA_RENAMES);
    m := m["execution_metadata" := EXECUTION_METADATA_RENAMES];
    AddCaseOnly(m, "invalid_auth_token", INVALID_AUTH_TOKEN_RENAMES);
    m := m["invalid_auth_token" := INVALID_AUTH_TOKEN_RENAMES];
    AddCaseOnly(m, "execution_annotations", EXECUTION_ANNOTATIONS_RENAMES);
    m := m["execution_annotations" := EXECUTION_ANNOTATIONS_RENAMES];
    AddCaseOnly(m, "annotation_tag_entity", ANNOTATION_TAG_ENTITY_RENAMES);
    m := m["annotation_tag_entity" := ANNOTATION_TAG_ENTITY_RENAMES];
    AddCaseOnly(m, "execution_annotation_tags", EXECUTION_ANNOTATION_TAGS_RENAMES);
    m := m["execution_annotation_tags" := EXECUTION_ANNOTATION_TAGS_RENAMES];
    AddCaseOnly(m, "execution_entity", EXECUTION_ENTITY_RENAMES);
    m := m["execution_entity" := EXECUTION_ENTITY_RENAMES];
    AddCaseOnly(m, "processed_data", PROCESSED_DATA_RENAMES);
    m := m["processed_data" := PROCESSED_DATA_RENAMES];
  }

  lemma MappingsCaseOnly2()
    ensures AllCaseOnly(map[]["installed_packages" := INSTALLED_PACKAGES_RENAMES]["installed_nodes" := INSTALLED_NODES_RENAMES]["auth_identity" := AUTH_IDENTITY_RENAMES]["auth_provider_sync_history" := AUTH_PROVIDER_SYNC_HISTORY_RENAMES]["tag_entity" := TAG_ENTITY_RENAMES]["workflows_tags" := WORKFLOWS_TAGS_RENAMES]["workflow_statistics" := WORKFLOW_STATISTICS_RENAMES]["webhook_entity" := WEBHOOK_ENTITY_RENAMES]["execution_data" := EXECUTION_DATA_RENAMES]["workflow_history" := WORKFLOW_HISTORY_RENAMES]["credentials_entity" := CREDENTIALS_ENTITY_RENAMES]["shared_credentials" := SHARED_CREDENTIALS_RENAMES]["shared_workflow" := SHARED_WORKFLOW_RENAMES]["execution_metadata" := EXECUTION_METADATA_RENAMES]["invalid_auth_token" := INVALID_AUTH_TOKEN_RENAMES]["execution_annotations" := EXECUTION_ANNOTATIONS_RENAMES]["annotation_tag_entity" := ANNOTATION_TAG_ENTITY_RENAMES]["execution_annotation_tags" := EXECUTION_ANNOTATION_TAGS_RENAMES]["execution_entity" := EXECUTION_ENTITY_RENAMES]["processed_data" := PROCESSED_DATA_RENAMES]["folder" := FOLDER_RENAMES]["folder_tag" := FOLDER_TAG_RENAMES]["workflow_entity" := WORKFLOW_ENTITY_RENAMES]["insights_metadata" := INSIGHTS_METADATA_RENAMES]["test_run" := TEST_RUN_RENAMES]["user" := USER_RENAMES]["test_case_execution" := TEST_CASE_EXECUTION_RENAMES]["project_relation" := PROJECT_RELATION_RENAMES]["data_table" := DATA_TABLE_RENAMES]["data_table_column" := DATA_TABLE_COLUMN_RENAMES])
  {
    MappingsCaseOnly1();
    var m := map[]["installed_packages" := INSTALLED_PACKAGES_RENAMES]["installed_nodes" := INSTALLED_NODES_RENAMES]["auth_identity" := AUTH_IDENTITY_RENAMES]["auth_provider_sync_history" := AUTH_PROVIDER_SYNC_HISTORY_RENAMES]["tag_entity" := TAG_ENTITY_RENAMES]["workflows_tags" := WORKFLOWS_TAGS_RENAMES]["workflow_statistics" := WORKFLOW_STATISTICS_RENAMES]["webhook_entity" := WEBHOOK_ENTITY_RENAMES]["execution_data" := EXECUTION_DATA_RENAMES]["workflow_history" := WORKFLOW_HISTORY_RENAMES]["credentials_entity" := CREDENTIALS_ENTITY_RENAMES]["shared_credentials" := SHARED_CREDENTIALS_RENAMES]["shared_workflow" := SHARED_WORKFLOW_RENAMES]["execution_metadata" := EXECUTION_METADATA_RENAMES]["invalid_auth_token" := INVALID_AUTH_TOKEN_RENAMES]["execution_annotations" := EXECUTION_ANNOTATIONS_RENAMES]["annotation_tag_entity" := ANNOTATION_TAG_ENTITY_RENAMES]["execution_annotation_tags" := EXECUTION_ANNOTATION_TAGS_RENAMES]["execution_entity" := EXECUTION_ENTITY_RENAMES]["processed_data" := PROCESSED_DATA_RENAMES];
    RenamesCaseOnly5();
    RenamesCaseOnly6();
    RenamesCaseOnly7();
    RenamesCaseOnly8();
    RenamesCaseOnly9();
    RenamesCaseOnly10();
    RenamesCaseOnly11();
    AddCaseOnly(m, "folder", FOLDER_RENAMES);
    m := m["folder" := FOLDER_RENAMES];
    AddCaseOnly(m, "folder_tag", FOLDER_TAG_RENAMES);
    m := m["folder_tag" := FOLDER_TAG_RENAMES];
    AddCaseOnly(m, "workflow_entity", WORKFLOW_ENTITY_RENAMES);
    m := m["workflow_entity" := WORKFLOW_ENTITY_RENAMES];
    AddCaseOnly(m, "insights_metadata", INSIGHTS_METADATA_RENAMES);
    m := m["insights_metadata" := INSIGHTS_METADATA_RENAMES];
    AddCaseOnly(m, "test_run", TEST_RUN_RENAMES);
    m := m["test_run" := TEST_RUN_RENAMES];
    AddCaseOnly(m, "user", USER_RENAMES);
    m := m["user" := USER_RENAMES];
    AddCaseOnly(m, "test_case_execution", TEST_CASE_EXECUTION_RENAMES);
    m := m["test_case_execution" := TEST_CASE_EXECUTION_RENAMES];
    AddCaseOnly(m, "project_relation", PROJECT_RELATION_RENAMES);
    m := m["project_relation" := PROJECT_RELATION_RENAMES];
    AddCaseOnly(m, "data_table", DATA_TABLE_RENAMES);
    m := m["data_table" := DATA_TABLE_RENAMES];
    AddCaseOnly(m, "data_table_column", DATA_TABLE_COLUMN_RENAMES);
    m := m["data_table_column" := DATA_TABLE_COLUMN_RENAMES];
  }

  lemma MappingsCaseOnly3()
    ensures AllCaseOnly(map[]["installed_packages" := INSTALLED_PACKAGES_RENAMES]["installed_nodes" := INSTALLED_NODES_RENAMES]["auth_identity" := AUTH_IDENTITY_RENAMES]["auth_provider_sync_history" := AUTH_PROVIDER_SYNC_HISTORY_RENAMES]["tag_entity" := TAG_ENTITY_RENAMES]["workflows_tags" := WORKFLOWS_TAGS_RENAMES]["workflow_statistics" := WORKFLOW_STATISTICS_RENAMES]["webhook_entity" := WEBHOOK_ENTITY_RENAMES]["execution_data" := EXECUTION_DATA_RENAMES]["workflow_history" := WORKFLOW_HISTORY_RENAMES]["credentials_entity" := CREDENTIALS_ENTITY_RENAMES]["shared_credentials" := SHARED_CREDENTIALS_RENAMES]["shared_workflow" := SHARED_WORKFLOW_RENAMES]["execution_metadata" := EXECUTION_METADATA_RENAMES]["invalid_auth_token" := INVALID_AUTH_TOKEN_RENAMES]["execution_annotations" := EXECUTION_ANNOTATIONS_RENAMES]["annotation_tag_entity" := ANNOTATION_TAG_ENTITY_RENAMES]["execution_annotation_tags" := EXECUTION_ANNOTATION_TAGS_RENAMES]["execution_entity" := EXECUTION_ENTITY_RENAMES]["processed_data" := PROCESSED_DATA_RENAMES]["folder" := FOLDER_RENAMES]["folder_tag" := FOLDER_TAG_RENAMES]["workflow_entity" := WORKFLOW_ENTITY_RENAMES]["insights_metadata" := INSIGHTS_METADATA_RENAMES]["test_run" := TEST_RUN_RENAMES]["user" := USER_RENAMES]["test_case_execution" := TEST_CASE_EXECUTION_RENAMES]["project_relation" := PROJECT_RELATION_RENAMES]["data_table" := DATA_TABLE_RENAMES]["data_table_column" := DATA_TABLE_COLUMN_RENAMES]["role_scope" := ROLE_SCOPE_RENAMES]["user_api_keys" := USER_API_KEYS_RENAMES]["insights_raw" := INSIGHTS_RAW_RENAMES]["insights_by_period" := INSIGHTS_BY_PERIOD_RENAMES]["chat_hub_sessions" := CHAT_HUB_SESSIONS_RENAMES]["workflow_dependency" := WORKFLOW_DEPENDENCY_RENAMES]["chat_hub_messages" := CHAT_HUB_MESSAGES_RENAMES])
  {
    MappingsCaseOnly2();
    var m := map[]["installed_packages" := INSTALLED_PACKAGES_RENAMES]["installed_nodes" := INSTALLED_NODES_RENAMES]["auth_identity" := AUTH_IDENTITY_RENAMES]["auth_provider_sync_history" := AUTH_PROVIDER_SYNC_HISTORY_RENAMES]["tag_entity" := TAG_ENTITY_RENAMES]["workflows_tags" := WORKFLOWS_TAGS_RENAMES]["workflow_statistics" := WORKFLOW_STATISTICS_RENAMES]["webhook_entity" := WEBHOOK_ENTITY_RENAMES]["execution_data" := EXECUTION_DATA_RENAMES]["workflow_history" := WORKFLOW_HISTORY_RENAMES]["credentials_entity" := CREDENTIALS_ENTITY_RENAMES]["shared_credentials" := SHARED_CREDENTIALS_RENAMES]["shared_workflow" := SHARED_WORKFLOW_RENAMES]["execution_metadata" := EXECUTION_METADATA_RENAMES]["invalid_auth_token" := INVALID_AUTH_TOKEN_RENAMES]["execution_annotations" := EXECUTION_ANNOTATIONS_RENAMES]["annotation_tag_entity" := ANNOTATION_TAG_ENTITY_RENAMES]["execution_annotation_tags" := EXECUTION_ANNOTATION_TAGS_RENAMES]["execution_entity" := EXECUTION_ENTITY_RENAMES]["processed_data" := PROCESSED_DATA_RENAMES]["folder" := FOLDER_RENAMES]["folder_tag" := FOLDER_TAG_RENAMES]["workflow_entity" := WORKFLOW_ENTITY_RENAMES]["insights_metadata" := INSIGHTS_METADATA_RENAMES]["test_run" := TEST_RUN_RENAMES]["user" := USER_RENAMES]["test_case_execution" := TEST_CASE_EXECUTION_RENAMES]["project_relation" := PROJECT_RELATION_RENAMES]["data_table" := DATA_TABLE_RENAMES]["data_table_column" := DATA_TABLE_COLUMN_RENAMES];
    RenamesCaseOnly15();
    RenamesCaseOnly12();
    RenamesCaseOnly13();
    RenamesCaseOnly14();
    AddCaseOnly(m, "role_scope", ROLE_SCOPE_RENAMES);
    m := m["role_scope" := ROLE_SCOPE_RENAMES];
    AddCaseOnly(m, "user_api_keys", USER_API_KEYS_RENAMES);
    m := m["user_api_keys" := USER_API_KEYS_RENAMES];
    AddCaseOnly(m, "insights_raw", INSIGHTS_RAW_RENAMES);
    m := m["insights_raw" := INSIGHTS_RAW_RENAMES];
    AddCaseOnly(m, "insights_by_period", INSIGHTS_BY_PERIOD_RENAMES);
    m := m["insights_by_period" := INSIGHTS_BY_PERIOD_RENAMES];
    AddCaseOnly(m, "chat_hub_sessions", CHAT_HUB_SESSIONS_RENAMES);
    m := m["chat_hub_sessions" := CHAT_HUB_SESSIONS_RENAMES];
    AddCaseOnly(m, "workflow_dependency", WORKFLOW_DEPENDENCY_RENAMES);
    m := m["workflow_dependency" := WORKFLOW_DEPENDENCY_RENAMES];
    AddCaseOnly(m, "chat_hub_messages", CHAT_HUB_MESSAGES_RENAMES);
    m := m["chat_hub_messages" := CHAT_HUB_MESSAGES_RENAMES];
  }

  lemma RenamesChangeCaseOnly()
    ensures forall t | t in COLUMN_MAPPINGS :: CaseOnly(COLUMN_MAPPINGS[t])
  {
    MappingsCaseOnly3();
  }
}
