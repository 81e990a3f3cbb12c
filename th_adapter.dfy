/** `th_adapter_RNA.py`: one input document per CSV row, stamped from a fixed template,
    written to `./input_json/<order_id>.json`, and one launch of the executor per
    written name. */
module ThAdapter {

  import opened Wrappers
  import opened Seqs
  import opened JsonValue
  import opened Text
  import opened Runs

  /** The cells the script reads from one CSV row (lines 74-89). */
  datatype Row = Row(
    transformId: string,
    orderId: string,
    tumorFastqArchive: string,
    dockerImage: string,
    workflow: string,
    cancerType: string,
    assay: string)

  /** Lines 17-19: the run goes on only with a first argument ending in `csv`; otherwise
      the script exits with status 1. On success the CSV path is returned. */
  function ArgvGuard(argv: seq<string>): (r: Result<string, int>)
    ensures r.Ok? <==> |argv| >= 2 && EndsWith(argv[1], "csv")
    ensures r.Ok? ==> r.value == argv[1]
    ensures r.Err? ==> r.error == 1
  {
    if |argv| < 2 || !EndsWith(argv[1], "csv") then Err(1) else Ok(argv[1])
  }

  /** The CONFIG keys the loop overwrites, in the order it assigns them. */
  const StampedKeys: seq<string> :=
    ["order_id", "tarball", "tumor_fastq_archive", "docker_image", "workflow", "cancer_type", "assay"]

  /** The CONFIG keys the loop overwrites are all among `ks`. */
  predicate HasStampedKeys(ks: seq<string>)
  {
    forall k :: k in StampedKeys ==> k in ks
  }

  /** The template of lines 22-59 (the commented-out `normal_fastq_archive` is not part
      of it). */
  const Template: Json := JObj([
    Field("transform_id", JStr("ccf09f5c-fa3a-4050-8071-5cc2ea3f4b5d")),
    Field("data_product_manifests", JObj([])),
    Field("data_products", JObj([])),
    Field("environment", JObj([Field("CONFIG", JObj(TemplateConfig))])),
    Field("parameters", JObj([]))
  ])

  /** The template's CONFIG dict. */
  const TemplateConfig: seq<Field> := [
    Field("order_id", JStr("POS07334-hd200-1")),
    Field("src_bucket", JStr("clinical-data-processing-staging")),
    Field("dest_bucket", JStr("clinical-data-processing-complete-staging")),
    Field("tarball", JStr("POS07334-hd200-1")),
    Field("instance_type", JStr("c5.9xlarge")),
    Field("volume_size", JStr("1000")),
    Field("ref_bucket", JStr("fda-xt-onco-refdata")),
    Field("docker_tag", JStr("nil")),
    Field("tumor_fastq_archive", JStr("gs://tl-bet-sequencer-output-fastq-us/20220307-181446-495028-746f9ed611e8/22-POS07334_DSQ1.tar.gz")),
    Field("docker_image", JStr("jane-dna-variant-fda")),
    Field("do_upload", JBool(false)),
    Field("do_upload_data_products", JBool(true)),
    Field("do_upload_to_cloud", JBool(true)),
    Field("no_upload_data_products_via_reconciler", JBool(false)),
    Field("workflow", JStr("tempus_xt_onco_matched")),
    Field("token", JStr("bioinformatics")),
    Field("cancer_type", JStr("Melanoma")),
    Field("flag_post", JStr("nil")),
    Field("url-massarray-snp", JStr("nil")),
    Field("url-massarray-cnv", JStr("nil")),
    Field("tumor_purity_pathology", JStr("21")),
    Field("assay", JStr("xT-onco.v1")),
    Field("order-fastq-archive", JStr("nil")),
    Field("slack_info_channel", JStr("bio_jane_staging")),
    Field("slack_error_channel", JStr("bio_jane_error_staging")),
    Field("data_product_storage_bucket", JStr("tsc-bioinf-data-products-staging-usw2")),
    Field("log_formatter", JStr("json"))
  ]

  /** A document the loop can stamp without a `KeyError` or `TypeError`: an object whose
      `environment` is an object whose `CONFIG` is an object. */
  ghost predicate Stampable(doc: Json)
  {
    && doc.JObj?
    && Get(doc.fields, "environment").Some?
    && Get(doc.fields, "environment").value.JObj?
    && Get(Get(doc.fields, "environment").value.fields, "CONFIG").Some?
    && Get(Get(doc.fields, "environment").value.fields, "CONFIG").value.JObj?
  }

  /** `doc["environment"]`. */
  function Env(doc: Json): (e: Json)
    requires Stampable(doc)
    ensures e.JObj?
  {
    Get(doc.fields, "environment").value
  }

  /** `doc["environment"]["CONFIG"]`. */
  function Config(doc: Json): (c: Json)
    requires Stampable(doc)
    ensures c.JObj?
  {
    Get(Env(doc).fields, "CONFIG").value
  }

  /** A stampable document that already has every key the loop assigns, as the template
      has: the assignments then only replace values, and no key moves. */
  ghost predicate Full(doc: Json)
  {
    Stampable(doc) && "transform_id" in Keys(doc.fields) && HasStampedKeys(Keys(Config(doc).fields))
  }

  /** Lines 76-89: the seven CONFIG assignments a row makes, in the order the script
      makes them; `tarball` takes the order id. */
  function Assignments(row: Row): seq<Field>
  {
    [ Field("order_id", JStr(row.orderId)),
      Field("tarball", JStr(row.orderId)),
      Field("tumor_fastq_archive", JStr(row.tumorFastqArchive)),
      Field("docker_image", JStr(row.dockerImage)),
      Field("workflow", JStr(row.workflow)),
      Field("cancer_type", JStr(row.cancerType)),
      Field("assay", JStr(row.assay)) ]
  }

  /** A row assigns exactly the stamped keys, in order. */
  lemma AssignmentsKeys(row: Row)
    ensures Keys(Assignments(row)) == StampedKeys
  {
  }

  /** The loop assigns seven different keys. */
  lemma StampedKeysDistinct()
    ensures forall a, b :: 0 <= a < b < |StampedKeys| ==> StampedKeys[a] != StampedKeys[b]
  {
  }

  /** Each stamped key takes the value the row gives it. */
  lemma AssignmentValue(row: Row, j: nat)
    requires j < |StampedKeys|
    ensures Get(Assignments(row), StampedKeys[j]) == Some(Assignments(row)[j].value)
  {
    var kvs := Assignments(row);
    AssignmentsKeys(row);
    StampedKeysDistinct();
    assert forall m :: 0 <= m < |kvs| ==> kvs[m].key == Keys(kvs)[m];
    GetUnique(kvs, StampedKeys[j], j);
  }

  /** Lines 75-89 on the CONFIG dict. */
  function StampConfig(config: seq<Field>, row: Row): seq<Field>
  {
    AssignAll(config, Assignments(row))
  }

  /** A CONFIG dict that has every stamped key has every key a row assigns. */
  lemma AssignmentsPresent(config: seq<Field>, row: Row)
    requires HasStampedKeys(Keys(config))
    ensures forall j :: 0 <= j < |Assignments(row)| ==> Assignments(row)[j].key in Keys(config)
  {
    var kvs := Assignments(row);
    AssignmentsKeys(row);
    forall j | 0 <= j < |kvs|
      ensures kvs[j].key in Keys(config)
    {
      assert kvs[j].key == StampedKeys[j];
    }
  }

  /** When CONFIG has every stamped key, the assignments add none. */
  lemma StampConfigKeys(config: seq<Field>, row: Row)
    requires HasStampedKeys(Keys(config))
    ensures Keys(StampConfig(config, row)) == Keys(config)
  {
    AssignmentsPresent(config, row);
    AssignAllKeys(config, Assignments(row));
  }

  /** Stamping the stamped CONFIG dict again leaves only the second row's values. */
  lemma StampConfigAgain(config: seq<Field>, r1: Row, r2: Row)
    requires HasStampedKeys(Keys(config))
    ensures StampConfig(StampConfig(config, r1), r2) == StampConfig(config, r2)
  {
    AssignmentsPresent(config, r1);
    AssignmentsPresent(config, r2);
    AssignmentsKeys(r1);
    AssignmentsKeys(r2);
    AssignAllAgain(config, Assignments(r1), Assignments(r2));
  }

  /** `doc["environment"]["CONFIG"] = config`, through the two enclosing dicts. */
  function WithConfig(doc: Json, config: seq<Field>): (r: Json)
    requires Stampable(doc)
    ensures r.JObj?
  {
    JObj(Assign(doc.fields, "environment", JObj(Assign(Env(doc).fields, "CONFIG", JObj(config)))))
  }

  /** Lines 74-89: the top-level `transform_id` then the seven CONFIG keys. */
  function Stamp(doc: Json, row: Row): (r: Json)
    requires Stampable(doc)
    ensures Stampable(r)
  {
    var top := JObj(Assign(doc.fields, "transform_id", JStr(row.transformId)));
    SetTopKeepsStampable(doc, "transform_id", JStr(row.transformId));
    var config := StampConfig(Config(top).fields, row);
    WithConfigShape(top, config);
    WithConfig(top, config)
  }

  /** Putting a CONFIG dict back into a document. */
  lemma WithConfigShape(doc: Json, config: seq<Field>)
    requires Stampable(doc)
    ensures Stampable(WithConfig(doc, config))
    ensures Env(WithConfig(doc, config)) == JObj(Assign(Env(doc).fields, "CONFIG", JObj(config)))
    ensures Config(WithConfig(doc, config)) == JObj(config)
  {
    var env := JObj(Assign(Env(doc).fields, "CONFIG", JObj(config)));
    GetAssign(doc.fields, "environment", env, "environment");
    GetAssign(Env(doc).fields, "CONFIG", JObj(config), "CONFIG");
  }

  /** Setting a top-level key other than `environment` leaves the nested dicts alone. */
  lemma SetTopKeepsStampable(doc: Json, k: string, v: Json)
    requires Stampable(doc) && k != "environment"
    ensures Stampable(JObj(Assign(doc.fields, k, v)))
    ensures Env(JObj(Assign(doc.fields, k, v))) == Env(doc)
  {
    GetAssign(doc.fields, k, v, "environment");
  }

  /** The shape of a stamped document: `transform_id` and CONFIG rewritten, every other
      top-level and `environment` entry as it was. */
  lemma StampShape(doc: Json, row: Row)
    requires Stampable(doc)
    ensures var r := Stamp(doc, row);
      && Stampable(r)
      && Get(r.fields, "transform_id") == Some(JStr(row.transformId))
      && (forall k :: k != "transform_id" && k != "environment" ==> Get(r.fields, k) == Get(doc.fields, k))
      && (forall k :: k != "CONFIG" ==> Get(Env(r).fields, k) == Get(Env(doc).fields, k))
      && Config(r) == JObj(StampConfig(Config(doc).fields, row))
  {
    var t := JStr(row.transformId);
    var top := JObj(Assign(doc.fields, "transform_id", t));
    SetTopKeepsStampable(doc, "transform_id", t);
    var config := StampConfig(Config(doc).fields, row);
    var env := JObj(Assign(Env(doc).fields, "CONFIG", JObj(config)));
    var r := Stamp(doc, row);
    assert r == JObj(Assign(top.fields, "environment", env));
    GetAssign(top.fields, "environment", env, "environment");
    GetAssign(Env(doc).fields, "CONFIG", JObj(config), "CONFIG");
    assert Stampable(r);
    forall k | k != "transform_id" && k != "environment"
      ensures Get(r.fields, k) == Get(doc.fields, k)
    {
      GetAssign(top.fields, "environment", env, k);
      GetAssign(doc.fields, "transform_id", t, k);
    }
    GetAssign(top.fields, "environment", env, "transform_id");
    GetAssign(doc.fields, "transform_id", t, "transform_id");
    forall k | k != "CONFIG"
      ensures Get(Env(r).fields, k) == Get(Env(doc).fields, k)
    {
      GetAssign(Env(doc).fields, "CONFIG", JObj(config), k);
    }
  }

  /** Lines 74-89 as the document records them: the row's transform id, its order id as
      both `order_id` and `tarball`, the row's five other CONFIG values, and the previous
      value of every other CONFIG key. */
  lemma StampValues(doc: Json, row: Row)
    requires Stampable(doc)
    ensures var r := Stamp(doc, row);
      && Get(r.fields, "transform_id") == Some(JStr(row.transformId))
      && Get(Config(r).fields, "order_id") == Some(JStr(row.orderId))
      && Get(Config(r).fields, "tarball") == Some(JStr(row.orderId))
      && Get(Config(r).fields, "tumor_fastq_archive") == Some(JStr(row.tumorFastqArchive))
      && Get(Config(r).fields, "docker_image") == Some(JStr(row.dockerImage))
      && Get(Config(r).fields, "workflow") == Some(JStr(row.workflow))
      && Get(Config(r).fields, "cancer_type") == Some(JStr(row.cancerType))
      && Get(Config(r).fields, "assay") == Some(JStr(row.assay))
      && forall k :: k !in StampedKeys ==> Get(Config(r).fields, k) == Get(Config(doc).fields, k)
  {
    StampShape(doc, row);
    var c := Config(doc).fields;
    var kvs := Assignments(row);
    AssignmentsKeys(row);
    AssignmentValue(row, 0);
    GetAssignAll(c, kvs, "order_id");
    AssignmentValue(row, 1);
    GetAssignAll(c, kvs, "tarball");
    AssignmentValue(row, 2);
    GetAssignAll(c, kvs, "tumor_fastq_archive");
    AssignmentValue(row, 3);
    GetAssignAll(c, kvs, "docker_image");
    AssignmentValue(row, 4);
    GetAssignAll(c, kvs, "workflow");
    AssignmentValue(row, 5);
    GetAssignAll(c, kvs, "cancer_type");
    AssignmentValue(row, 6);
    GetAssignAll(c, kvs, "assay");
    forall k | k !in StampedKeys
      ensures Get(Config(Stamp(doc, row)).fields, k) == Get(c, k)
    {
      GetAssignAll(c, kvs, k);
    }
  }

  /** Stamping a full document gives a full document. */
  lemma StampFull(doc: Json, row: Row)
    requires Full(doc)
    ensures Full(Stamp(doc, row))
  {
    StampShape(doc, row);
    StampConfigKeys(Config(doc).fields, row);
  }

  /** The template has every key the loop assigns. */
  lemma TemplateFull()
    ensures Full(Template)
  {
    var fs := Template.fields;
    var env := [Field("CONFIG", JObj(TemplateConfig))];
    GetUnique(fs, "environment", 3);
    GetUnique(env, "CONFIG", 0);
    assert Keys(fs)[0] == "transform_id";
    TemplateConfigKeys();
  }

  lemma TemplateConfigKeys()
    ensures HasStampedKeys(Keys(TemplateConfig))
  {
    var ks := Keys(TemplateConfig);
    assert TemplateConfig[0].key == "order_id";
    assert TemplateConfig[3].key == "tarball";
    assert TemplateConfig[8].key == "tumor_fastq_archive";
    assert TemplateConfig[9].key == "docker_image";
    assert TemplateConfig[14].key == "workflow";
    assert TemplateConfig[16].key == "cancer_type";
    assert TemplateConfig[21].key == "assay";
    forall k | k in StampedKeys
      ensures k in ks
    {
      KeyAt(TemplateConfig, 0);
      KeyAt(TemplateConfig, 3);
      KeyAt(TemplateConfig, 8);
      KeyAt(TemplateConfig, 9);
      KeyAt(TemplateConfig, 14);
      KeyAt(TemplateConfig, 16);
      KeyAt(TemplateConfig, 21);
    }
  }

  /** Because every stamped field is overwritten on every pass, what an earlier row left
      in the shared template does not show in the next document. */
  lemma {:induction false} StampAbsorbs(doc: Json, r1: Row, r2: Row)
    requires Full(doc)
    ensures Stamp(Stamp(doc, r1), r2) == Stamp(doc, r2)
  {
    var once := Stamp(doc, r1);
    StampShape(doc, r1);
    var fs := doc.fields;
    var e := Env(doc).fields;
    var c := Config(doc).fields;
    var t1 := JStr(r1.transformId);
    var t2 := JStr(r2.transformId);
    SetTopKeepsStampable(doc, "transform_id", t1);
    SetTopKeepsStampable(doc, "transform_id", t2);
    SetTopKeepsStampable(once, "transform_id", t2);
    var top1 := JObj(Assign(fs, "transform_id", t1));
    var top2 := JObj(Assign(fs, "transform_id", t2));
    var top12 := JObj(Assign(once.fields, "transform_id", t2));
    var c1 := StampConfig(c, r1);
    var env1 := JObj(Assign(e, "CONFIG", JObj(c1)));
    assert once == JObj(Assign(top1.fields, "environment", env1));
    StampConfigAgain(c, r1, r2);
    var c2 := StampConfig(c, r2);
    assert Config(top12) == Config(once) == JObj(c1);
    assert Env(top12) == Env(once) == env1;
    AssignTwice(e, "CONFIG", JObj(c1), JObj(c2));
    var env2 := JObj(Assign(e, "CONFIG", JObj(c2)));
    assert Stamp(once, r2) == JObj(Assign(top12.fields, "environment", env2));
    assert Stamp(doc, r2) == JObj(Assign(top2.fields, "environment", env2));
    assert "environment" in Keys(fs);
    AssignPairAgain(fs, "transform_id", "environment", t1, env1, t2, env2);
  }

  /** `"./input_json/%s.json" % name`. */
  function PathOf(name: string): (p: string)
    ensures EndsWith(p, ".json") && |p| == |name| + 18
    ensures p[13..|p| - 5] == name
  {
    "./input_json/" + name + ".json"
  }

  /** Different order ids never share a file. */
  lemma PathOfInjective(a: string, b: string)
    ensures PathOf(a) == PathOf(b) ==> a == b
  {
    if PathOf(a) == PathOf(b) {
      assert a == PathOf(a)[13..|PathOf(a)| - 5];
    }
  }

  /** `json_name_list` after the rows `rows`: one path per row, in order. */
  function Paths(rows: seq<Row>): (ps: seq<string>)
    ensures |ps| == |rows|
    ensures forall i :: 0 <= i < |rows| ==> ps[i] == PathOf(rows[i].orderId)
  {
    if rows == [] then []
    else Paths(rows[..|rows| - 1]) + [PathOf(rows[|rows| - 1].orderId)]
  }

  /** One pass of the loop on the template. A document the loop cannot stamp would
      stop the script with an error; it is left as it is here, and never arises, since
      the template can be stamped and stamping keeps it so. */
  ghost function StampStep(doc: Json, row: Row): Json
  {
    if Stampable(doc) then Stamp(doc, row) else doc
  }

  /** The template after the loop has stamped `rows` into it, one after the other. */
  ghost function StampAll(doc: Json, rows: seq<Row>): Json
  {
    Run(StampStep, doc, rows)
  }

  /** The documents serialised after the rows `rows`: on each pass the one-element list
      holding the template as it then is. */
  ghost function Documents(doc: Json, rows: seq<Row>): (ds: seq<Json>)
    ensures |ds| == |rows|
  {
    Wrapped(Trace(StampStep, doc, rows))
  }

  /** The document serialised on pass `k` is the one-element list holding the template
      stamped with row `k` alone: each pass overrides everything earlier passes stamped. */
  lemma DocumentAt(doc: Json, rows: seq<Row>, k: nat)
    requires Full(doc) && k < |rows|
    ensures Documents(doc, rows)[k] == JArr([Stamp(doc, rows[k])])
  {
    TraceAt(StampStep, doc, rows, k);
    StampAllLast(doc, rows[..k + 1]);
  }

  /** Each document in a one-element list, as line 90 wraps it. */
  function Wrapped(docs: seq<Json>): (ws: seq<Json>)
    ensures |ws| == |docs|
    ensures forall i :: 0 <= i < |docs| ==> ws[i] == JArr([docs[i]])
  {
    seq(|docs|, i requires 0 <= i < |docs| => JArr([docs[i]]))
  }

  /** The files after `docs[i]` has been written to `paths[i]`, one after the other: a
      later write to a path replaces an earlier one. */
  function WriteAll(files: map<string, Json>, paths: seq<string>, docs: seq<Json>): map<string, Json>
    requires |paths| == |docs|
  {
    if paths == [] then files
    else
      var n := |paths| - 1;
      WriteAll(files, paths[..n], docs[..n])[paths[n] := docs[n]]
  }

  /** The files after the rows `rows`. */
  ghost function Written(files: map<string, Json>, doc: Json, rows: seq<Row>): map<string, Json>
  {
    WriteAll(files, Paths(rows), Documents(doc, rows))
  }

  /** After any non-empty run on a document with every stamped key, the template holds
      the last row's values, and nothing else of the earlier rows. */
  lemma StampAllLast(doc: Json, rows: seq<Row>)
    requires Full(doc) && rows != []
    ensures StampAll(doc, rows) == Stamp(doc, rows[|rows| - 1])
  {
    StepAbsorbs(doc);
    RunLast(StampStep, doc, rows);
  }

  /** Every pass overrides whatever the passes before it left in the template. */
  lemma StepAbsorbs(doc: Json)
    requires Full(doc)
    ensures forall x, y :: StampStep(StampStep(doc, x), y) == StampStep(doc, y)
  {
    forall x, y
      ensures StampStep(StampStep(doc, x), y) == StampStep(doc, y)
    {
      StampAbsorbs(doc, x, y);
    }
  }

  /** Every path written to is one of `paths`, and each of them is written. */
  lemma {:induction false} WriteAllKeys(files: map<string, Json>, paths: seq<string>, docs: seq<Json>)
    requires |paths| == |docs|
    ensures forall p :: p in WriteAll(files, paths, docs) <==> p in files || p in paths
  {
    if paths != [] {
      var n := |paths| - 1;
      WriteAllKeys(files, paths[..n], docs[..n]);
      assert paths == paths[..n] + [paths[n]];
    }
  }

  /** A path no later write goes to holds its own document. */
  lemma {:induction false} WriteAllLatest(files: map<string, Json>, paths: seq<string>, docs: seq<Json>, k: nat)
    requires |paths| == |docs| && k < |paths|
    requires forall j :: k < j < |paths| ==> paths[j] != paths[k]
    ensures paths[k] in WriteAll(files, paths, docs)
    ensures WriteAll(files, paths, docs)[paths[k]] == docs[k]
  {
    var n := |paths| - 1;
    if k < n {
      WriteAllLatest(files, paths[..n], docs[..n], k);
    }
  }

  /** One more write. */
  lemma WriteAllStep(files: map<string, Json>, paths: seq<string>, docs: seq<Json>, p: string, d: Json)
    requires |paths| == |docs|
    ensures WriteAll(files, paths + [p], docs + [d]) == WriteAll(files, paths, docs)[p := d]
  {
    assert (paths + [p])[..|paths|] == paths;
    assert (docs + [d])[..|docs|] == docs;
  }

  /** Every path of `json_name_list` was written, and only those (beyond what was there
      before). */
  lemma WrittenPaths(files: map<string, Json>, doc: Json, rows: seq<Row>)
    ensures forall p :: p in Written(files, doc, rows) <==> p in files || p in Paths(rows)
  {
    WriteAllKeys(files, Paths(rows), Documents(doc, rows));
  }

  /** The file of a row that no later row shares an order id with holds that row's
      document alone: a one-element list of the template stamped with that row. When
      two rows share an order id the later one's document is the one left. */
  lemma WrittenDocument(files: map<string, Json>, doc: Json, rows: seq<Row>, k: nat)
    requires Full(doc) && k < |rows|
    requires forall j :: k < j < |rows| ==> rows[j].orderId != rows[k].orderId
    ensures PathOf(rows[k].orderId) in Written(files, doc, rows)
    ensures Written(files, doc, rows)[PathOf(rows[k].orderId)] == JArr([Stamp(doc, rows[k])])
  {
    PathsLatest(rows, k);
    WriteAllLatest(files, Paths(rows), Documents(doc, rows), k);
    DocumentAt(doc, rows, k);
  }

  /** Distinct order ids give distinct paths. */
  lemma PathsLatest(rows: seq<Row>, k: nat)
    requires k < |rows|
    requires forall j :: k < j < |rows| ==> rows[j].orderId != rows[k].orderId
    ensures forall j :: k < j < |rows| ==> Paths(rows)[j] != Paths(rows)[k]
  {
    forall j | k < j < |rows|
      ensures Paths(rows)[j] != Paths(rows)[k]
    {
      PathOfInjective(rows[j].orderId, rows[k].orderId);
    }
  }

  /** One more row: one more path listed. */
  lemma PathsStep(rows: seq<Row>, i: nat)
    requires i < |rows|
    ensures Paths(rows[..i + 1]) == Paths(rows[..i]) + [PathOf(rows[i].orderId)]
  {
    assert rows[..i + 1][..i] == rows[..i];
  }

  /** One more row: one more file written. */
  lemma WrittenStep(files: map<string, Json>, doc: Json, rows: seq<Row>, i: nat)
    requires i < |rows|
    ensures Written(files, doc, rows[..i + 1]) ==
              Written(files, doc, rows[..i])[PathOf(rows[i].orderId) := JArr([StampAll(doc, rows[..i + 1])])]
  {
    var states := Trace(StampStep, doc, rows[..i]);
    var last := StampAll(doc, rows[..i + 1]);
    PathsStep(rows, i);
    TraceStep(StampStep, doc, rows, i);
    assert Wrapped(states + [last]) == Wrapped(states) + [JArr([last])];
    WriteAllStep(files, Paths(rows[..i]), Wrapped(states), PathOf(rows[i].orderId), JArr([last]));
  }

  /** Lines 75-89 on the CONFIG dict, one statement per key in the script's order. */
  method AssignRow(config: seq<Field>, row: Row) returns (r: seq<Field>)
    ensures r == StampConfig(config, row)
  {
    assert Assignments(row)[..0] == [];
    r := config;
    AssignStep(config, row, r, 0, "order_id", JStr(row.orderId));
    r := Assign(r, "order_id", JStr(row.orderId));
    AssignStep(config, row, r, 1, "tarball", JStr(row.orderId));
    r := Assign(r, "tarball", JStr(row.orderId));
    AssignStep(config, row, r, 2, "tumor_fastq_archive", JStr(row.tumorFastqArchive));
    r := Assign(r, "tumor_fastq_archive", JStr(row.tumorFastqArchive));
    AssignStep(config, row, r, 3, "docker_image", JStr(row.dockerImage));
    r := Assign(r, "docker_image", JStr(row.dockerImage));
    AssignStep(config, row, r, 4, "workflow", JStr(row.workflow));
    r := Assign(r, "workflow", JStr(row.workflow));
    AssignStep(config, row, r, 5, "cancer_type", JStr(row.cancerType));
    r := Assign(r, "cancer_type", JStr(row.cancerType));
    AssignStep(config, row, r, 6, "assay", JStr(row.assay));
    r := Assign(r, "assay", JStr(row.assay));
    assert Assignments(row)[..7] == Assignments(row);
  }

  /** One assignment of the row's values, in order. */
  lemma AssignStep(config: seq<Field>, row: Row, prev: seq<Field>, j: nat, key: string, value: Json)
    requires j < |Assignments(row)| && prev == AssignAll(config, Assignments(row)[..j])
    requires key == Assignments(row)[j].key && value == Assignments(row)[j].value
    ensures Assign(prev, key, value) == AssignAll(config, Assignments(row)[..j + 1])
  {
    AssignAllSnoc(config, Assignments(row), j);
  }

  /** The name list and the files of lines 69-95, and the template `data` that the loop
      mutates through its alias `temp_data`. */
  class Batch {
    var data: Json
    var nameList: seq<string>
    var files: map<string, Json>

    /** Lines 22-69: the template, an empty name list, no files yet. */
    constructor ()
      ensures data == Template && nameList == [] && files == map[]
    {
      data := Template;
      nameList := [];
      files := map[];
    }

    /** One pass of lines 73-95. `temp_data = data` makes no copy, so the assignments
        change `data` itself; the seven CONFIG assignments reach the same CONFIG dict.
        `temp_data = [temp_data]` then rebinds only the local name, and the one-element
        list is what is serialised to the row's path. */
    method StampRow(row: Row)
      requires Stampable(data)
      modifies this
      ensures data == Stamp(old(data), row) && Stampable(data)
      ensures nameList == old(nameList) + [PathOf(row.orderId)]
      ensures files == old(files)[PathOf(row.orderId) := JArr([data])]
    {
      SetTopKeepsStampable(data, "transform_id", JStr(row.transformId));
      data := JObj(Assign(data.fields, "transform_id", JStr(row.transformId)));
      var config := AssignRow(Config(data).fields, row);
      data := WithConfig(data, config);
      var document := JArr([data]);
      var name := row.orderId;
      nameList := nameList + [PathOf(name)];
      files := files[PathOf(name) := document];
    }

    /** Lines 72-95: every row in order. */
    method WriteInputs(rows: seq<Row>)
      requires Stampable(data)
      modifies this
      ensures Stampable(old(data))
      ensures data == StampAll(old(data), rows)
      ensures nameList == old(nameList) + Paths(rows)
      ensures files == Written(old(files), old(data), rows)
    {
      ghost var doc, names, written := data, nameList, files;
      assert rows[..0] == [];
      for i := 0 to |rows|
        invariant Wrote(doc, names, written, rows, i, data, nameList, files)
      {
        WriteRow(doc, names, written, rows, i);
      }
      assert rows[..|rows|] == rows;
    }

    /** One pass of the loop at lines 72-95, as the loop has it after `i` rows. */
    method WriteRow(ghost doc: Json, ghost names: seq<string>, ghost written: map<string, Json>, rows: seq<Row>, i: nat)
      requires i < |rows| && Wrote(doc, names, written, rows, i, data, nameList, files)
      modifies this
      ensures Wrote(doc, names, written, rows, i + 1, data, nameList, files)
    {
      RunStep(StampStep, doc, rows, i);
      PathsStep(rows, i);
      WrittenStep(written, doc, rows, i);
      StampRow(rows[i]);
      AppendAssoc(names, Paths(rows[..i]), [PathOf(rows[i].orderId)]);
    }
  }

  /** The template, the name list and the files after the first `i` rows, starting from
      `doc`, `names` and `written`. */
  ghost predicate Wrote(doc: Json, names: seq<string>, written: map<string, Json>, rows: seq<Row>, i: nat,
                        data: Json, nameList: seq<string>, files: map<string, Json>)
    requires i <= |rows|
  {
    && Stampable(doc) && Stampable(data)
    && data == StampAll(doc, rows[..i])
    && nameList == names + Paths(rows[..i])
    && files == Written(written, doc, rows[..i])
  }

  /** The command line of lines 99-108 for one input file. */
  function Command(filename: string): (c: seq<string>)
    ensures |c| == 7 && c[4] == filename
  {
    ["python3", "-m", "bioinf_analysis_utils.orch.th_execute", "--input-path", filename, "--output-path", "out.json"]
  }

  /** Lines 98-110: one executor launch per entry of the name list, in order; the
      process itself and the one-second pause are not modelled. */
  method LaunchAll(names: seq<string>) returns (launched: seq<seq<string>>)
    ensures |launched| == |names|
    ensures forall k :: 0 <= k < |names| ==> launched[k] == Command(names[k])
  {
    launched := [];
    for k := 0 to |names|
      invariant |launched| == k
      invariant forall j :: 0 <= j < k ==> launched[j] == Command(names[j])
    {
      launched := launched + [Command(names[k])];
    }
  }

  /** Each launch reads a file the first loop wrote, and each row is launched once, even
      when two rows share an order id. */
  lemma LaunchesWrittenFiles(files: map<string, Json>, doc: Json, rows: seq<Row>, launched: seq<seq<string>>)
    requires Stampable(doc)
    requires |launched| == |rows|
    requires forall k :: 0 <= k < |rows| ==> launched[k] == Command(Paths(rows)[k])
    ensures forall k :: 0 <= k < |rows| ==> |launched[k]| == 7 && launched[k][4] in Written(files, doc, rows)
  {
    WrittenPaths(files, doc, rows);
  }
}
