/**
 * The static configuration of the n8n SQLite-to-PostgreSQL migration driver:
 * the order in which tables are copied, the per-table column rename maps,
 * and the fixed lists of boolean- and JSON-typed destination columns.
 */
module Schema {

  /** Tables in the order they are copied; a table referencing another by
      foreign key comes after it. */
  const MIGRATION_ORDER: seq<string> :=
    [
      "migrations",
      "settings",
      "role",
      "scope",
      "role_scope",
      "user",
      "auth_identity",
      "auth_provider_sync_history",
      "user_api_keys",
      "project",
      "project_relation",
      "folder",
      "tag_entity",
      "annotation_tag_entity",
      "folder_tag",
      "credentials_entity",
      "shared_credentials",
      "workflow_entity",
      "shared_workflow",
      "workflow_history",
      "workflow_statistics",
      "workflows_tags",
      "workflow_dependency",
      "webhook_entity",
      "execution_entity",
      "execution_data",
      "execution_metadata",
      "execution_annotations",
      "execution_annotation_tags",
      "variables",
      "processed_data",
      "data_table",
      "data_table_column",
      "test_run",
      "test_case_execution",
      "installed_packages",
      "installed_nodes",
      "event_destinations",
      "insights_metadata",
      "insights_raw",
      "insights_by_period",
      "chat_hub_sessions",
      "chat_hub_messages",
      "invalid_auth_token"
    ]

  /** Per table: lowercased source column name -> destination column name.
      A table with no entry keeps every source column name as it is. */
  const COLUMN_MAPPINGS: map<string, map<string, string>> :=
    map[
      "installed_packages" := INSTALLED_PACKAGES_RENAMES,
      "installed_nodes" := INSTALLED_NODES_RENAMES,
      "auth_identity" := AUTH_IDENTITY_RENAMES,
      "auth_provider_sync_history" := AUTH_PROVIDER_SYNC_HISTORY_RENAMES,
      "tag_entity" := TAG_ENTITY_RENAMES,
      "workflows_tags" := WORKFLOWS_TAGS_RENAMES,
      "workflow_statistics" := WORKFLOW_STATISTICS_RENAMES,
      "webhook_entity" := WEBHOOK_ENTITY_RENAMES,
      "execution_data" := EXECUTION_DATA_RENAMES,
      "workflow_history" := WORKFLOW_HISTORY_RENAMES,
      "credentials_entity" := CREDENTIALS_ENTITY_RENAMES,
      "shared_credentials" := SHARED_CREDENTIALS_RENAMES,
      "shared_workflow" := SHARED_WORKFLOW_RENAMES,
      "execution_metadata" := EXECUTION_METADATA_RENAMES,
      "invalid_auth_token" := INVALID_AUTH_TOKEN_RENAMES,
      "execution_annotations" := EXECUTION_ANNOTATIONS_RENAMES,
      "annotation_tag_entity" := ANNOTATION_TAG_ENTITY_RENAMES,
      "execution_annotation_tags" := EXECUTION_ANNOTATION_TAGS_RENAMES,
      "execution_entity" := EXECUTION_ENTITY_RENAMES,
      "processed_data" := PROCESSED_DATA_RENAMES,
      "folder" := FOLDER_RENAMES,
      "folder_tag" := FOLDER_TAG_RENAMES,
      "workflow_entity" := WORKFLOW_ENTITY_RENAMES,
      "insights_metadata" := INSIGHTS_METADATA_RENAMES,
      "test_run" := TEST_RUN_RENAMES,
      "user" := USER_RENAMES,
      "test_case_execution" := TEST_CASE_EXECUTION_RENAMES,
      "project_relation" := PROJECT_RELATION_RENAMES,
      "data_table" := DATA_TABLE_RENAMES,
      "data_table_column" := DATA_TABLE_COLUMN_RENAMES,
      "role_scope" := ROLE_SCOPE_RENAMES,
      "user_api_keys" := USER_API_KEYS_RENAMES,
      "insights_raw" := INSIGHTS_RAW_RENAMES,
      "insights_by_period" := INSIGHTS_BY_PERIOD_RENAMES,
      "chat_hub_sessions" := CHAT_HUB_SESSIONS_RENAMES,
      "workflow_dependency" := WORKFLOW_DEPENDENCY_RENAMES,
      "chat_hub_messages" := CHAT_HUB_MESSAGES_RENAMES
    ]

  // The rename map of each table, in the order the tables appear above.

  const INSTALLED_PACKAGES_RENAMES: map<string, string> := map[
    "packagename" := "packageName",
    "installedversion" := "installedVersion",
    "authorname" := "authorName",
    "authoremail" := "authorEmail"
  ]

  const INSTALLED_NODES_RENAMES: map<string, string> := map[
    "latestversion" := "latestVersion"
  ]

  const AUTH_IDENTITY_RENAMES: map<string, string> := map[
    "userid" := "userId",
    "providerid" := "providerId",
    "providertype" := "providerType",
    "createdat" := "createdAt",
    "updatedat" := "updatedAt"
  ]

  const AUTH_PROVIDER_SYNC_HISTORY_RENAMES: map<string, string> := map[
    "providertype" := "providerType"
  ]

  const TAG_ENTITY_RENAMES: map<string, string> := map[
    "createdat" := "createdAt",
    "updatedat" := "updatedAt"
  ]

  const WORKFLOWS_TAGS_RENAMES: map<string, string> := map[
    "workflowid" := "workflowId",
    "tagid" := "tagId"
  ]

  const WORKFLOW_STATISTICS_RENAMES: map<string, string> := map[
    "workflowid" := "workflowId",
    "latestEvent" := "latestEvent",
    "rootcount" := "rootCount"
  ]

  const WEBHOOK_ENTITY_RENAMES: map<string, string> := map[
    "workflowid" := "workflowId",
    "webhookpath" := "webhookPath",
    "webhookid" := "webhookId",
    "pathlength" := "pathLength"
  ]

  const EXECUTION_DATA_RENAMES: map<string, string> := map[
    "workflowdata" := "workflowData"
  ]

  const WORKFLOW_HISTORY_RENAMES: map<string, string> := map[
    "versionid" := "versionId",
    "workflowid" := "workflowId",
    "createdat" := "createdAt",
    "updatedat" := "updatedAt"
  ]

  const CREDENTIALS_ENTITY_RENAMES: map<string, string> := map[
    "createdat" := "createdAt",
    "updatedat" := "updatedAt"
  ]

  const SHARED_CREDENTIALS_RENAMES: map<string, string> := map[
    "credentialsid" := "credentialsId",
    "projectid" := "projectId"
  ]

  const SHARED_WORKFLOW_RENAMES: map<string, string> := map[
    "workflowid" := "workflowId",
    "projectid" := "projectId"
  ]

  const EXECUTION_METADATA_RENAMES: map<string, string> := map[
    "executionid" := "executionId"
  ]

  const INVALID_AUTH_TOKEN_RENAMES: map<string, string> := map[]

  const EXECUTION_ANNOTATIONS_RENAMES: map<string, string> := map[
    "executionid" := "executionId"
  ]

  const ANNOTATION_TAG_ENTITY_RENAMES: map<string, string> := map[
    "createdat" := "createdAt",
    "updatedat" := "updatedAt"
  ]

  const EXECUTION_ANNOTATION_TAGS_RENAMES: map<string, string> := map[
    "annotationid" := "annotationId",
    "tagid" := "tagId"
  ]

  const EXECUTION_ENTITY_RENAMES: map<string, string> := map[
    "workflowid" := "workflowId",
    "retryof" := "retryOf",
    "retrysuccessid" := "retrySuccessId",
    "startedat" := "startedAt",
    "stoppedat" := "stoppedAt",
    "waitTill" := "waitTill",
    "workflowdata" := "workflowData",
    "customdata" := "customData"
  ]

  const PROCESSED_DATA_RENAMES: map<string, string> := map[
    "workflowid" := "workflowId"
  ]

  const FOLDER_RENAMES: map<string, string> := map[
    "parentfolderid" := "parentFolderId",
    "projectid" := "projectId",
    "createdat" := "createdAt",
    "updatedat" := "updatedAt"
  ]

  const FOLDER_TAG_RENAMES: map<string, string> := map[
    "folderid" := "folderId",
    "tagid" := "tagId"
  ]

  const WORKFLOW_ENTITY_RENAMES: map<string, string> := map[
    "createdat" := "createdAt",
    "updatedat" := "updatedAt",
    "versionid" := "versionId",
    "triggercount" := "triggerCount",
    "parentfolderid" := "parentFolderId",
    "pindata" := "pinData",
    "staticdata" := "staticData"
  ]

  const INSIGHTS_METADATA_RENAMES: map<string, string> := map[
    "metaid" := "metaId",
    "workflowid" := "workflowId",
    "projectid" := "projectId",
    "workflowname" := "workflowName",
    "projectname" := "projectName"
  ]

  const TEST_RUN_RENAMES: map<string, string> := map[
    "workflowid" := "workflowId",
    "triggercount" := "triggerCount",
    "runcreatedat" := "runCreatedAt",
    "completedat" := "completedAt",
    "errorcode" := "errorCode",
    "errordetails" := "errorDetails"
  ]

  const USER_RENAMES: map<string, string> := map[
    "firstname" := "firstName",
    "lastname" := "lastName",
    "createdat" := "createdAt",
    "updatedat" := "updatedAt",
    "personalizationanswers" := "personalizationAnswers",
    "roleslug" := "roleSlug",
    "ispending" := "isPending",
    "mfasecret" := "mfaSecret",
    "mfaenabled" := "mfaEnabled",
    "mfarecoverycodes" := "mfaRecoveryCodes"
  ]

  const TEST_CASE_EXECUTION_RENAMES: map<string, string> := map[
    "testrunid" := "testRunId",
    "executionid" := "executionId",
    "errorcode" := "errorCode",
    "errordetails" := "errorDetails",
    "runcreatedat" := "runCreatedAt",
    "completedat" := "completedAt"
  ]

  const PROJECT_RELATION_RENAMES: map<string, string> := map[
    "projectid" := "projectId",
    "userid" := "userId"
  ]

  const DATA_TABLE_RENAMES: map<string, string> := map[
    "projectid" := "projectId",
    "createdat" := "createdAt",
    "updatedat" := "updatedAt"
  ]

  const DATA_TABLE_COLUMN_RENAMES: map<string, string> := map[
    "datatableid" := "dataTableId"
  ]

  const ROLE_SCOPE_RENAMES: map<string, string> := map[
    "roleslug" := "roleSlug",
    "scopeslug" := "scopeSlug"
  ]

  const USER_API_KEYS_RENAMES: map<string, string> := map[
    "userid" := "userId",
    "apikey" := "apiKey",
    "createdat" := "createdAt",
    "updatedat" := "updatedAt"
  ]

  const INSIGHTS_RAW_RENAMES: map<string, string> := map[
    "metaid" := "metaId",
    "createdat" := "createdAt"
  ]

  const INSIGHTS_BY_PERIOD_RENAMES: map<string, string> := map[
    "metaid" := "metaId",
    "periodunit" := "periodUnit",
    "periodfrom" := "periodFrom",
    "periodto" := "periodTo"
  ]

  const CHAT_HUB_SESSIONS_RENAMES: map<string, string> := map[
    "ownerid" := "ownerId",
    "credentialid" := "credentialId",
    "workflowid" := "workflowId",
    "createdat" := "createdAt",
    "updatedat" := "updatedAt"
  ]

  const WORKFLOW_DEPENDENCY_RENAMES: map<string, string> := map[
    "workflowid" := "workflowId",
    "workflowversionid" := "workflowVersionId",
    "dependencytype" := "dependencyType",
    "dependencykey" := "dependencyKey",
    "dependencyinfo" := "dependencyInfo"
  ]

  const CHAT_HUB_MESSAGES_RENAMES: map<string, string> := map[
    "sessionid" := "sessionId",
    "previousmessageid" := "previousMessageId",
    "revisionofmessageid" := "revisionOfMessageId",
    "retryofmessageid" := "retryOfMessageId",
    "workflowid" := "workflowId",
    "executionid" := "executionId",
    "createdat" := "createdAt",
    "updatedat" := "updatedAt"
  ]

  /** Destination columns whose non-null values are converted to booleans. */
  const BOOLEAN_COLUMNS: seq<string> :=
    ["active", "finished", "loadOnStartup", "systemRole", "disabled",
     "mfaEnabled", "isManaged", "isPending", "isArchived"]

  /** Destination columns whose text values are parsed as JSON (for
      validation only; the value is never changed). */
  const JSON_COLUMNS: seq<string> :=
    ["nodes", "connections", "settings", "staticData", "pinData", "meta", "workflowData"]


  /** No name occurs twice in `names`. */
  ghost predicate Distinct(names: seq<string>)
  {
    forall i, j :: 0 <= i < j < |names| ==> names[i] != names[j]
  }

  /** No table appears twice in MIGRATION_ORDER. */
  lemma MigrationOrderDistinct()
    ensures |MIGRATION_ORDER| == 44
    ensures Distinct(MIGRATION_ORDER)
  {
    OrderDistinctFrom0();
    OrderDistinctFrom2();
    OrderDistinctFrom5();
    OrderDistinctFrom8();
    OrderDistinctFrom11();
    OrderDistinctFrom14();
    OrderDistinctFrom18();
    OrderDistinctFrom22();
    OrderDistinctFrom27();
    OrderDistinctFrom34();
  }

  // Each lemma below compares a few positions of MIGRATION_ORDER with every
  // later one: the verifier compares only a limited number of string
  // literals per proof.

  lemma OrderDistinctFrom0()
    ensures forall i, j :: 0 <= i < 2 && i < j < |MIGRATION_ORDER| ==> MIGRATION_ORDER[i] != MIGRATION_ORDER[j]
  {
  }

  lemma OrderDistinctFrom2()
    ensures forall i, j :: 2 <= i < 5 && i < j < |MIGRATION_ORDER| ==> MIGRATION_ORDER[i] != MIGRATION_ORDER[j]
  {
  }

  lemma OrderDistinctFrom5()
    ensures forall i, j :: 5 <= i < 8 && i < j < |MIGRATION_ORDER| ==> MIGRATION_ORDER[i] != MIGRATION_ORDER[j]
  {
  }

  lemma OrderDistinctFrom8()
    ensures forall i, j :: 8 <= i < 11 && i < j < |MIGRATION_ORDER| ==> MIGRATION_ORDER[i] != MIGRATION_ORDER[j]
  {
  }

  lemma OrderDistinctFrom11()
    ensures forall i, j :: 11 <= i < 14 && i < j < |MIGRATION_ORDER| ==> MIGRATION_ORDER[i] != MIGRATION_ORDER[j]
  {
  }

  lemma OrderDistinctFrom14()
    ensures forall i, j :: 14 <= i < 18 && i < j < |MIGRATION_ORDER| ==> MIGRATION_ORDER[i] != MIGRATION_ORDER[j]
  {
  }

  lemma OrderDistinctFrom18()
    ensures forall i, j :: 18 <= i < 22 && i < j < |MIGRATION_ORDER| ==> MIGRATION_ORDER[i] != MIGRATION_ORDER[j]
  {
  }

  lemma OrderDistinctFrom22()
    ensures forall i, j :: 22 <= i < 27 && i < j < |MIGRATION_ORDER| ==> MIGRATION_ORDER[i] != MIGRATION_ORDER[j]
  {
  }

  lemma OrderDistinctFrom27()
    ensures forall i, j :: 27 <= i < 34 && i < j < |MIGRATION_ORDER| ==> MIGRATION_ORDER[i] != MIGRATION_ORDER[j]
  {
  }

  lemma OrderDistinctFrom34()
    ensures forall i, j :: 34 <= i < 44 && i < j < |MIGRATION_ORDER| ==> MIGRATION_ORDER[i] != MIGRATION_ORDER[j]
  {
  }
}
