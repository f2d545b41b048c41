# Playbook report scripts, in Dafny

The repository is a set of stand-alone command-line scripts. Each script turns the JSON that an
Ansible playbook run leaves behind into a spreadsheet, or in one case an HTML page, for people
to review. Every script does the same four things:

- it reads a list or map of per-host records;
- it normalises a few fields, filling defaults and coercing values to text, integers or flags;
- it classifies each host (vulnerable or not, risk level, sudo level, active or locked);
- it writes one row per host with coloured cells and column widths sized to the content.

This project models that logic for twenty of the scripts, one Dafny module per script, or per
pair where two copies differ only slightly. Seven shared modules hold the Python behaviour the
scripts rely on:

| module | models |
|---|---|
| `PyText` | `str`: whitespace, `strip`, `split`, `splitlines`, case mapping, `str(int)` and `int(str)` |
| `PyNum` | `float()` of decimal text and `int()` truncation |
| `JsonValue` | decoded JSON values: truthiness, `dict.get`, iteration, `str()`, `repr()` |
| `Pep440` | `packaging.version` on dotted releases, with zero-padded ordering (the "Final releases" section of PEP 440) |
| `StableSort` | Python's ordering of strings and tuples, stable `sorted`, `sorted(set(...))` |
| `Report` | how a run ends (`Outcome`: `Done`, `Exit(code)` or `Crash(exception)`), what the input path holds, the clamped column width, and the generic record loops |
| `Frame` | the part of a pandas DataFrame the scripts use: building from records, `rename`, the "preferred columns first" reordering, `reindex` |

Each script's driver is a `method` with its loops, the way the script runs. Each method is proved
against a function that states what the run produces. It covers the exit codes and uncaught
exceptions as `Outcome` values, and otherwise the rows, cell formats and widths. Values the
scripts take from outside become parameters:

- what the input path holds (`Input`: missing, malformed or a decoded document);
- the number of command-line words;
- the time of the run;
- whether saving succeeds.

## Model

| member | source | states |
|---|---|---|
| PyText.Strip | Elastic_Agent_SIEM/Salidas_Playbooks/export_excel_elastic_agent.py:72 | no whitespace is left at either end, and `StripSlice` shows only whitespace was cut off |
| PyText.StripSlice | Elastic_Agent_SIEM/Salidas_Playbooks/export_excel_elastic_agent.py:72 | the result is a slice of the input with only whitespace before and after it |
| PyText.StripIdempotent | Elastic_Agent_SIEM/Salidas_Playbooks/export_excel_elastic_agent.py:72 | stripping twice equals stripping once |
| PyText.RStripChar | replace_ip_project/scripts/genera_reporte_replace_ip.py:48-51 | only trailing copies of the character are removed, and none is left at the end |
| PyText.Find | replace_ip_project/scripts/genera_reporte_replace_ip.py:45-46 | a found index is an occurrence of the separator and no earlier index is one; no index is one when nothing is found |
| PyText.SplitOn | Validaciones_Generales/view_user_permissions/Generar_Excel_Users.py:27 | at least one piece |
| PyText.SplitOnJoin | Validaciones_Generales/view_user_permissions/Generar_Excel_Users.py:27 | joining the pieces with the separator gives back the text |
| PyText.JoinSplitOn | Validaciones_Generales/view_user_permissions/Generar_Excel_Users.py:53 | splitting at a one-character separator undoes joining pieces without it |
| PyText.SplitLines | Validaciones_Generales/view_user_permissions/Generar_Excel_Users.py:52 | no line holds a line break |
| PyText.Words | Validaciones_Generales/exportar_rsync_versiones.py:35 | every piece is a non-empty run of non-whitespace |
| PyText.WordsWeave | Validaciones_Generales/exportar_rsync_versiones.py:35 | the pieces are the maximal runs in order: woven back with the whitespace runs between them (only the first and last possibly empty) they give the text |
| PyText.WordsFirst | Validaciones_Generales/exportar_rsync_versiones.py:35 | a leading word followed by whitespace is the first piece |
| PyText.Lower | Validaciones_Generales/exportar_rsync_versiones.py:33 | same length, each character lower-cased |
| PyText.ParseSignedDigits | replace_ip_project/scripts/genera_reporte_replace_ip.py:29 | `int` accepts exactly an optional sign followed by digits |
| PyText.IntTextRoundTrip | General/Uptime/genera_excel_uptime.py:34 | `int(str(i)) == i` |
| JsonValue.LastIndex | Validaciones_Generales/generar_excel_nessus.py:15 | a duplicated key takes the value of its last member |
| JsonValue.Keys | Validaciones_Generales/view_user_permissions/Generar_Excel_Users.py:22 | each key once, exactly the keys of the members |
| JsonValue.Items | Validaciones_Generales/exportar_rsync_versiones.py:27 | `items()` pairs each key once with its value, in first-occurrence order |
| JsonValue.Iter | Validaciones_Generales/generar_excel_nessus.py:36 | a list, a text or a dict can be iterated, anything else raises TypeError; a list gives its items, a text its characters, a dict its keys in order |
| JsonValue.ReprStr | trendmicro-sensor-project/scripts/generate_excel.py:74 | quoted with `'` unless the text holds a `'` and no `"`, and the escaped body reads back, as a Python literal, as the text itself |
| Pep440.ParseDotted | Validaciones_Generales/exportar_rsync_versiones.py:45 | a parsed release has one number per dotted part |
| Pep440.DottedTextParses | Validaciones_Generales/exportar_rsync_versiones.py:45 | writing a release with dots and parsing it back gives the release |
| Pep440.ReleaseTextParses | Validaciones_Generales/exportar_rsync_versiones.py:45 | `version.parse` reads a dotted release back |
| Pep440.Cmp | Validaciones_Generales/exportar_rsync_versiones.py:45 | the comparison is -1, 0 or 1 |
| Pep440.CmpFlip | Validaciones_Generales/exportar_rsync_versiones.py:45 | the order is antisymmetric |
| Pep440.CmpTrans | Validaciones_Generales/exportar_rsync_versiones.py:45 | the order is transitive |
| Pep440.CmpTrailingZero | Validaciones_Generales/exportar_rsync_versiones.py:45 | a trailing zero does not change the comparison |
| Pep440.TrimZeros | Validaciones_Generales/exportar_rsync_versiones.py:45 | trailing zeros are dropped, nothing else |
| Pep440.CmpIsTupleOrder | Validaciones_Generales/exportar_rsync_versiones.py:45 | the zero-padded order equals tuple order after dropping trailing zeros |
| StableSort.StrCmp | os_inventory_project/scripts/convert_json_to_excel.py:100 | string comparison is -1, 0 or 1 |
| StableSort.StrCmpFlip | os_inventory_project/scripts/convert_json_to_excel.py:100 | string order is antisymmetric |
| StableSort.StrCmpSame | os_inventory_project/scripts/convert_json_to_excel.py:100 | strings compare equal iff they are equal |
| StableSort.StrCmpTrans | os_inventory_project/scripts/convert_json_to_excel.py:100 | string order is transitive |
| StableSort.KeyCmpTrans | General/Uptime/genera_excel_uptime.py:72 | tuple order is transitive |
| StableSort.SortBy | General/Uptime/genera_excel_uptime.py:72 | the sort keeps the length |
| StableSort.SortBySorted | General/Uptime/genera_excel_uptime.py:72 | the sort orders by key |
| StableSort.SortByPermutes | General/Uptime/genera_excel_uptime.py:72 | the sort is a permutation |
| StableSort.SortByStable | os_inventory_project/scripts/convert_json_to_excel.py:100 | elements sharing a key keep their input order |
| StableSort.SortedSet | Validaciones_Generales/view_user_permissions/Generar_Excel_Users.py:42 | `sorted(set(xs))` holds exactly the values of `xs` |
| StableSort.SortedSetIncreasing | Validaciones_Generales/view_user_permissions/Generar_Excel_Users.py:42 | `sorted(set(xs))` is strictly increasing |
| Report.Clamp | Zabbix_agent/scripts/export_audit_excel.py:73 | at most the cap, at least the floor, and exactly the larger of the longest plus two and the floor when that is below the cap |
| Report.ClampNoFloor | Elastic_Agent_SIEM/Salidas_Playbooks/export_excel_elastic_agent.py:52 | with no floor the width is `min(longest + 2, cap)` |
| Report.ColumnMax | Elastic_Agent_SIEM/Salidas_Playbooks/export_excel_elastic_agent.py:48-51 | no cell of the column is longer, and one cell reaches it unless it is 0 |
| Report.Lengths | Elastic_Agent_SIEM/Salidas_Playbooks/export_excel_elastic_agent.py:49-51 | one length per cell, measured by the given rule |
| Report.ShownLength | Zabbix_agent/scripts/export_audit_excel.py:72 | a false value counts 0, a text its length |
| Report.TextCells | Zabbix_agent/scripts/export_audit_excel.py:67 | one text cell per column name |
| Report.ColumnWidths | Elastic_Agent_SIEM/Salidas_Playbooks/export_excel_elastic_agent.py:44-52 | every column's width is its clamped longest cell, and every cell that fits under the cap fits its column |
| Report.MapAll | os_inventory_project/scripts/convert_json_to_excel.py:85-91 | every item's result in order, or the first item's failure |
| Report.MapAllStep | os_inventory_project/scripts/convert_json_to_excel.py:85-91 | one more item appends its result or ends the run |
| Report.MapAllDone | os_inventory_project/scripts/convert_json_to_excel.py:85-91 | when no item fails the result lists every value |
| Report.MapAllStop | os_inventory_project/scripts/convert_json_to_excel.py:85-91 | after a failing item later items change nothing |
| Report.Gather | replace_ip_project/scripts/genera_reporte_replace_ip.py:154-180 | the pieces of every item in order, or the first failure |
| Report.MapAllLoop | os_inventory_project/scripts/convert_json_to_excel.py:85-91 | the loop computes exactly `MapAll` |
| Report.GatherLoop | replace_ip_project/scripts/genera_reporte_replace_ip.py:154-180 | the loop computes exactly `Gather` |
| Report.Sum | replace_ip_project/scripts/genera_reporte_replace_ip.py:84-86 | a sum exists iff no summand raises; otherwise the error of the first summand that raises, all before it having succeeded |
| Report.SumAppend | replace_ip_project/scripts/genera_reporte_replace_ip.py:84-86 | the sum over two runs is the sum of their sums |
| Report.SumAgree | replace_ip_project/scripts/genera_reporte_replace_ip.py:84-86 | agreeing summands give the same sum |
| Report.Dicts | Elastic_Agent_SIEM/Salidas_Playbooks/export_excel_elastic_agent.py:89-94 | no more records than items |
| Report.DictsMembers | Elastic_Agent_SIEM/Salidas_Playbooks/export_excel_elastic_agent.py:89-94 | every dict item is kept, and nothing else |
| Report.KeepDicts | Check_Docker/scripts/docker_stats_to_excel.py:117-120 | one row per dict record, in order |
| Frame.Keep | Zabbix_agent/scripts/export_audit_excel.py:61 | exactly the items of `xs` that are in `ys`, repetition-free when `xs` is |
| Frame.Drop | Zabbix_agent/scripts/export_audit_excel.py:62 | exactly the items of `xs` that are not in `ys`, repetition-free when `xs` is |
| Frame.PreferredFirstPermutes | Zabbix_agent/scripts/export_audit_excel.py:61-62 | the reordering loses no column and repeats none |
| Frame.PreferredFirstOrder | Zabbix_agent/scripts/export_audit_excel.py:61-62 | the kept preferred columns come first in preferred order, the others follow in their order |
| Frame.PreferredFirstBlocks | Zabbix_agent/scripts/export_audit_excel.py:61-62 | exactly the first block holds preferred columns |
| Frame.ColumnsOf | Zabbix_agent/scripts/export_audit_excel.py:60 | every key of every record once, and nothing else |
| Frame.IndexOf | Zabbix_agent/scripts/export_audit_excel.py:63 | the first position of the name |
| Frame.FromRecords | Zabbix_agent/scripts/export_audit_excel.py:60 | one row per record, each cell the record's value under the column |
| Frame.RecordList | Trendmicro/scripts/json_to_excel_ds2022.py:25 | a list of objects and only that yields records |
| Frame.Renamed | Trendmicro/scripts/json_to_excel_ds2022.py:28-39 | an unmapped name is kept, a mapped one takes a new name from the map |
| Frame.RenamedKey | Trendmicro/scripts/json_to_excel_ds2022.py:28-39 | a mapped name gets its new name |
| Frame.Rename | Trendmicro/scripts/json_to_excel_ds2022.py:39 | every column is renamed in place, the rows stay |
| Frame.RenameIdempotent | Trendmicro/scripts/json_to_excel_ds2022.py:39 | when no new name is itself mapped, renaming twice equals once |
| Frame.RenameCells | Trendmicro/scripts/json_to_excel_ds2022.py:39 | every cell is found under the new name of its column |
| Frame.RenameClash | Trendmicro/scripts/json_to_excel_ds2022.py:39-55 | two columns renamed to one name repeat a label |
| Frame.Project | Zabbix_agent/scripts/export_audit_excel.py:63 | the frame has exactly the given columns and every row |
| Frame.ProjectCells | Zabbix_agent/scripts/export_audit_excel.py:63 | every row keeps its cell under each name |
| Frame.Reindex | Trendmicro/scripts/json_to_excel_ds2022.py:55 | ValueError iff the frame repeats a label; otherwise the given columns |
| Frame.PreferredFirst | Zabbix_agent/scripts/export_audit_excel.py:61-62 | the kept preferred columns are a prefix of the result |
| PyNum.TruncBounds | replace_ip_project/scripts/genera_reporte_replace_ip.py:21-22 | `int()` of a float truncates toward zero: the whole part at or below a non-negative number, at or above a negative one, less than one away |
| OpensslReport.MatchAt | Validaciones_Generales/exportar_openssl_excel.py:56 | a match of `OpenSSL\s+(\d+\.\d+\.\d+)([a-z]*)` at one position captures a dotted three-number base and a run of letters |
| OpensslReport.Search | Validaciones_Generales/exportar_openssl_excel.py:56 | `re.search` finds nothing exactly when no position starts a match; otherwise the leftmost match |
| OpensslReport.FirstPos | Validaciones_Generales/exportar_openssl_excel.py:56 | the leftmost position where a match starts, or none when no position in range starts one |
| OpensslReport.LowerCharClasses | Validaciones_Generales/exportar_openssl_excel.py:56 | lower-casing keeps the character classes the case-insensitive pattern tests |
| OpensslReport.MatchAtAgree | Validaciones_Generales/exportar_openssl_excel.py:56 | texts that differ only in letter case match at the same positions with the same base |
| OpensslReport.AlikeSuffixes | Validaciones_Generales/exportar_openssl_excel.py:60 | suffixes that differ only in case lower-case to the same word |
| OpensslReport.NormalizeIgnoresCase | Validaciones_Generales/exportar_openssl_excel.py:56-67 | the normalised version does not depend on the letter case of the text |
| OpensslReport.SuffixValueFront | Validaciones_Generales/exportar_openssl_excel.py:61-64 | a letter in front adds its value (a=1 … z=26) times 26 to the power of its position from the end |
| OpensslReport.SuffixNumber | Validaciones_Generales/exportar_openssl_excel.py:62-64 | the loop over the reversed suffix computes the bijective base-26 value of the suffix |
| OpensslReport.SuffixValueBounds | Validaciones_Generales/exportar_openssl_excel.py:61-64 | a k-letter suffix lies between 1+26+…+26^(k-1) and 26 times that |
| OpensslReport.SuffixLengthOrder | Validaciones_Generales/exportar_openssl_excel.py:61-64 | every k-letter suffix is smaller than every (k+1)-letter one |
| OpensslReport.SuffixValueInjective | Validaciones_Generales/exportar_openssl_excel.py:61-64 | different suffixes give different numbers |
| OpensslReport.NumberOf | Validaciones_Generales/exportar_openssl_excel.py:59-67 | a recognised text stands for three base numbers, plus the suffix value when there is a suffix |
| OpensslReport.NormalizeParses | Validaciones_Generales/exportar_openssl_excel.py:65-72 | `version.parse` reads the normalised text as exactly that number |
| OpensslReport.VersionToNumber | Validaciones_Generales/exportar_openssl_excel.py:55-67 | the function with its suffix loop returns the normalised text, None when nothing matches |
| OpensslReport.SearchFront | Validaciones_Generales/exportar_openssl_excel.py:56 | a match at the front is the one `re.search` returns |
| OpensslReport.CanonicalMatch | Validaciones_Generales/exportar_openssl_excel.py:56-74 | "OpenSSL " followed by three dotted numbers and a lower-case suffix captures them as written |
| OpensslReport.BoundWritten | Validaciones_Generales/exportar_openssl_excel.py:73-74 | a table bound stands for its three numbers, then its suffix value when it has a suffix |
| OpensslReport.BoundIs | Validaciones_Generales/exportar_openssl_excel.py:73-74 | the number a table bound stands for, spelled out |
| OpensslReport.InRangeHalfOpen | Validaciones_Generales/exportar_openssl_excel.py:70-75 | `version_in_range` holds exactly for start <= current < end, compared as tuples of the releases without trailing zeros |
| OpensslReport.RangeEnds | Validaciones_Generales/exportar_openssl_excel.py:75 | the start of a non-empty range is inside it, the end is not |
| OpensslReport.RangeParseFailure | Validaciones_Generales/exportar_openssl_excel.py:71-77 | any text that fails to parse makes the answer False |
| OpensslReport.Assoc | Validaciones_Generales/exportar_openssl_excel.py:88-89 | a dict lookup finds a key exactly when the table lists it, with its value |
| OpensslReport.CveNamesDistinct | Validaciones_Generales/exportar_openssl_excel.py:19-30 | the range table names each CVE once |
| OpensslReport.FirstEndBound | Validaciones_Generales/exportar_openssl_excel.py:20 | "1.0.2ze" reads as 1.0.2.681 |
| OpensslReport.TwoDigitBound | Validaciones_Generales/exportar_openssl_excel.py:28 | "3.0.10" reads as 3.0.10 and "3.0.9" as 3.0.9, and the first is above the second |
| OpensslReport.Hits | Validaciones_Generales/exportar_openssl_excel.py:107-111 | for each CVE, whether one of its ranges holds the version |
| OpensslReport.Affected | Validaciones_Generales/exportar_openssl_excel.py:107-111 | the positions of the CVEs hit, increasing, exactly the hit ones |
| OpensslReport.Names | Validaciones_Generales/exportar_openssl_excel.py:110 | the CVE names at those positions, in order |
| OpensslReport.StatusText | Validaciones_Generales/exportar_openssl_excel.py:103-115 | the three statuses are written "Vulnerable", "No vulnerable" and "No evaluado" |
| OpensslReport.ListedMembers | Validaciones_Generales/exportar_openssl_excel.py:107-111 | a CVE is listed exactly when one of its ranges holds the version |
| OpensslReport.ListedOrdered | Validaciones_Generales/exportar_openssl_excel.py:107-111 | the list follows table order and repeats no CVE when the table names each once |
| OpensslReport.EvaluateUnrecognised | Validaciones_Generales/exportar_openssl_excel.py:101-103 | an unrecognised text is "No evaluado" with reason "Formato no reconocido" |
| OpensslReport.ClassifyRecognised | Validaciones_Generales/exportar_openssl_excel.py:105-115 | a recognised version is "Vulnerable" exactly when a CVE affects it, listing exactly those CVEs |
| OpensslReport.EvaluateListsOnce | Validaciones_Generales/exportar_openssl_excel.py:105-113 | no report lists a CVE twice |
| OpensslReport.NamesStep | Validaciones_Generales/exportar_openssl_excel.py:107-111 | one more CVE adds its name exactly when it is hit |
| OpensslReport.AnyRangeHolds | Validaciones_Generales/exportar_openssl_excel.py:108-111 | the inner loop stops at the first range that holds the version |
| OpensslReport.EvaluateAgainst | Validaciones_Generales/exportar_openssl_excel.py:105-115 | the outer loop over the CVEs computes the classification |
| OpensslReport.EvaluateVulnerability | Validaciones_Generales/exportar_openssl_excel.py:100-117 | `evaluar_vulnerabilidad` over the script's table |
| OpensslReport.Texts | Validaciones_Generales/exportar_openssl_excel.py:85 | the parts of `base_version`, each number without leading zeros |
| OpensslReport.RequiereNoKey | Validaciones_Generales/exportar_openssl_excel.py:86-95 | with no prefix among the keys the answer is "Desconocido" |
| OpensslReport.RequiereLongestKey | Validaciones_Generales/exportar_openssl_excel.py:86-94 | otherwise the longest prefix that is a key decides |
| OpensslReport.RequiereFromRange | Validaciones_Generales/exportar_openssl_excel.py:80-97 | the answer is a minimum safe version, "No" or "Desconocido" |
| OpensslReport.RequiereAgainst | Validaciones_Generales/exportar_openssl_excel.py:80-97 | "Desconocido" for a missing, empty or unreadable version, otherwise the answer of the prefix loop |
| OpensslReport.RequiereLoop | Validaciones_Generales/exportar_openssl_excel.py:86-95 | the loop from three parts down to one computes the answer the longest key prefix decides |
| OpensslReport.RequiereUpdate | Validaciones_Generales/exportar_openssl_excel.py:80-97 | `requiere_actualizacion` over the script's table |
| OpensslReport.SeverityKnown | Validaciones_Generales/exportar_openssl_excel.py:19-43 | every CVE of the range table has a severity |
| OpensslReport.Severities | Validaciones_Generales/exportar_openssl_excel.py:144 | `sorted(set(...))`: strictly increasing, exactly the severities of the listed CVEs |
| OpensslReport.HostRow | Validaciones_Generales/exportar_openssl_excel.py:139-162 | the row has one cell per header column |
| OpensslReport.TallyCountsAll | Validaciones_Generales/exportar_openssl_excel.py:146-151 | every host is counted exactly once |
| OpensslReport.TallyVulnerable | Validaciones_Generales/exportar_openssl_excel.py:146-168 | the vulnerable counter equals the number of red Estado cells |
| OpensslReport.HostRowsAt | Validaciones_Generales/exportar_openssl_excel.py:138-163 | row k of the sheet is host k's row |
| OpensslReport.EstadosAt | Validaciones_Generales/exportar_openssl_excel.py:138-163 | status k is the status host k's version is given |
| OpensslReport.TallyStep | Validaciones_Generales/exportar_openssl_excel.py:146-151 | one more status moves exactly one counter |
| OpensslReport.ProcessHost | Validaciones_Generales/exportar_openssl_excel.py:139-170 | one loop pass gives the host's row and status, or the exception for a record that is not a dict |
| OpensslReport.ExportHosts | Validaciones_Generales/exportar_openssl_excel.py:133-170 | the loop with its three counters builds every row and the counts |
| OpensslReport.ExportWith | Validaciones_Generales/exportar_openssl_excel.py:120-174 | exit 1 unless one argument is given; a missing or malformed file crashes; otherwise the sheet |
| OpensslReport.ExportOpenssl | Validaciones_Generales/exportar_openssl_excel.py:11-182 | the script: exit 1 on wrong arguments, the sheet and the counts otherwise |
| CurlAudit.AtMostTotalOrder | Vulnerabilidades/CURL/curl_audit_to_excel.py:71 | comparing version tuples is a total order |
| CurlAudit.AtMostIsReleaseOrder | Vulnerabilidades/CURL/curl_audit_to_excel.py:71 | the tuple comparison agrees with the release order of the version parser |
| CurlAudit.Numbers | Vulnerabilidades/CURL/curl_audit_to_excel.py:56 | `[int(p) for p in parts]` fails exactly when one part is not an integer, otherwise converts each part |
| CurlAudit.FromParts | Vulnerabilidades/CURL/curl_audit_to_excel.py:56-59 | two or three converted parts, padded with a zero patch level |
| CurlAudit.Leading | Vulnerabilidades/CURL/curl_audit_to_excel.py:51-56 | the leading pieces of the stripped text split at dots: all of them when there are fewer than three, otherwise the first three; a single piece exactly when there is no dot |
| CurlAudit.ConvertParts | Vulnerabilidades/CURL/curl_audit_to_excel.py:55-61 | the conversion and the padding loop give the padded tuple |
| CurlAudit.NumbersNonePrefix | Vulnerabilidades/CURL/curl_audit_to_excel.py:55-61 | one part that does not convert spoils the whole list |
| CurlAudit.ParseSemverLoop | Vulnerabilidades/CURL/curl_audit_to_excel.py:42-61 | `parse_semver` as the script runs it |
| CurlAudit.ParseSemverNone | Vulnerabilidades/CURL/curl_audit_to_excel.py:47-61 | no version exactly for an empty text, "NOT_INSTALLED", a text with no dot, or a part that is not an integer |
| CurlAudit.ParseSemverThree | Vulnerabilidades/CURL/curl_audit_to_excel.py:42-61 | three numbers written with dots read back as themselves |
| CurlAudit.ParseSemverTwo | Vulnerabilidades/CURL/curl_audit_to_excel.py:57-58 | two numbers read back with a zero patch level |
| CurlAudit.ParseSemverFour | Vulnerabilidades/CURL/curl_audit_to_excel.py:56-59 | parts beyond the third are dropped |
| CurlAudit.ParseDottedParts | Vulnerabilidades/CURL/curl_audit_to_excel.py:51 | numbers written with dots split back into texts that read as those numbers |
| CurlAudit.IsAffectedThree | Vulnerabilidades/CURL/curl_audit_to_excel.py:64-71 | a version is affected exactly when 7.17.0 <= version <= 8.17.0, both bounds included |
| CurlAudit.UnparsedNotAffected | Vulnerabilidades/CURL/curl_audit_to_excel.py:68-70 | a text that does not parse is never affected |
| CurlAudit.RowValues | Vulnerabilidades/CURL/curl_audit_to_excel.py:140-145 | the status in the computed column, `row.get(key, "")` in every other |
| CurlAudit.HostRow | Vulnerabilidades/CURL/curl_audit_to_excel.py:133-147 | one loop pass: AttributeError for a record that is not a dict or a version `strip` cannot read; otherwise ValueError exactly when a row value is a list or dict, and the row of `RowValues` when none is |
| CurlAudit.RowFill | Vulnerabilidades/CURL/curl_audit_to_excel.py:135-153 | the whole row is red exactly when the host is installed and affected, green otherwise, and the status says which |
| CurlAudit.HeaderRow | Vulnerabilidades/CURL/curl_audit_to_excel.py:125 | the header has one cell per column |
| CurlAudit.AutosizeColumns | Vulnerabilidades/CURL/curl_audit_to_excel.py:74-85 | each width is the longest non-empty cell plus two, header included, but at most 60 |
| CurlAudit.CollectRows | Vulnerabilidades/CURL/curl_audit_to_excel.py:125-153 | the header row, then each record's values and fills in order; otherwise the exception of the first record that fails |
| CurlAudit.ExportCurl | Vulnerabilidades/CURL/curl_audit_to_excel.py:88-159 | exit 1 with fewer than two arguments; FileNotFoundError, JSONDecodeError, TypeError for a document that cannot be iterated, or the first failing record's exception; otherwise the sheet, with each width the longest cell plus two, at most 60 |
| RsyncReport.VersionTokenCases | Validaciones_Generales/exportar_rsync_versiones.py:33-39 | the third word when "version" is mentioned and there are three words, "Desconocida" with fewer, "No instalado" iff not mentioned |
| RsyncReport.StatusFormat | Validaciones_Generales/exportar_rsync_versiones.py:43-56 | the safe format iff not installed or not vulnerable, the vulnerable format iff vulnerable or an invalid version |
| RsyncReport.ClassifyRelease | Validaciones_Generales/exportar_rsync_versiones.py:43-50 | a dotted release is vulnerable iff it is below 3.4.0 |
| RsyncReport.NoRelease | Validaciones_Generales/exportar_rsync_versiones.py:51-53 | text without a dot that starts with a letter other than `v` is not a version |
| RsyncReport.PlaceholderStatus | Validaciones_Generales/exportar_rsync_versiones.py:36-53 | "Desconocida" is an invalid version; "No instalado" is not compared |
| RsyncReport.NotInstalledIff | Validaciones_Generales/exportar_rsync_versiones.py:33-56 | a host is "No instalado" iff its output does not mention "version" |
| RsyncReport.InfoOf | Validaciones_Generales/exportar_rsync_versiones.py:27-56 | AttributeError for a non-dict record or non-text output; otherwise the token and its status |
| RsyncReport.CellsV1 | Validaciones_Generales/exportar_rsync_versiones.py:30-58 | host, IP, token and status with its format |
| RsyncReport.RowV1 | Validaciones_Generales/exportar_rsync_versiones.py:27-59 | AttributeError for a non-dict record, then TypeError for an IP that cannot be written, then AttributeError for non-text output; otherwise the four cells, all writable |
| RsyncReport.HeaderCells | Validaciones_Generales/exportar_rsync_versiones.py:21-24 | one header-formatted cell per header |
| RsyncReport.WriteHosts | Validaciones_Generales/exportar_rsync_versiones.py:26-61 | header in row 0 and every host's row in object order with the filter over them when every row is written; otherwise the first failing row's exception |
| RsyncReport.ExportV1 | Validaciones_Generales/exportar_rsync_versiones.py:10-63 | FileNotFoundError, JSONDecodeError, AttributeError for a non-object root; the first failing host's exception; otherwise four columns 30 wide and the filter over every row, which every host that passes `GoodHostV1` reaches |
| RsyncReport.Texts | Validaciones_Generales/exportar_rsync_versionesV2.py:40 | `", ".join` needs every item to be text |
| RsyncReport.UsageOfNames | Validaciones_Generales/exportar_rsync_versionesV2.py:39-40 | a list of names is joined by ", ", or "No" when empty |
| RsyncReport.UsageMissing | Validaciones_Generales/exportar_rsync_versionesV2.py:39-40 | a missing or false usage list gives "No" |
| RsyncReport.CellsV2 | Validaciones_Generales/exportar_rsync_versionesV2.py:36-78 | the V1 cells, the usage text and three wrapped detail cells |
| RsyncReport.RowV2 | Validaciones_Generales/exportar_rsync_versionesV2.py:36-80 | in the script's order: AttributeError for a non-dict record, TypeError from the usage join, TypeError for the IP, AttributeError for non-text output, TypeError for a detail text; otherwise the eight cells |
| RsyncReport.ExportV2 | Validaciones_Generales/exportar_rsync_versionesV2.py:10-88 | the same load errors; the first failing host's exception; otherwise eight columns, the filter over every written row and all eight header columns, reached when every host passes `GoodHostV2` |
| UserPermissions.CharIndex | Validaciones_Generales/view_user_permissions/Generar_Excel_Users.py:37 | the first index of the character, or none when it does not occur |
| UserPermissions.GroupMatches | Validaciones_Generales/view_user_permissions/Generar_Excel_Users.py:41 | every match of `\(([^)]+)\)` is non-empty and holds no ")" |
| UserPermissions.GroupMatchesGroup | Validaciones_Generales/view_user_permissions/Generar_Excel_Users.py:41 | a closed group is matched and the scan resumes after it |
| UserPermissions.GroupMatchesPlain | Validaciones_Generales/view_user_permissions/Generar_Excel_Users.py:41 | text without "(" contributes no group |
| UserPermissions.FirstUidWord | Validaciones_Generales/view_user_permissions/Generar_Excel_Users.py:38 | the first word starting with "uid=", or none when no word does |
| UserPermissions.GroupsListed | Validaciones_Generales/view_user_permissions/Generar_Excel_Users.py:41-42 | the listed groups are exactly the distinct matches, increasing, each once |
| UserPermissions.ParseIdWord | Validaciones_Generales/view_user_permissions/Generar_Excel_Users.py:36-38 | "uid=N(user) ..." gives the user and the UID N |
| UserPermissions.CommandLines | Validaciones_Generales/view_user_permissions/Generar_Excel_Users.py:52 | every kept line starts with "(" |
| UserPermissions.Kept | Validaciones_Generales/view_user_permissions/Generar_Excel_Users.py:52 | every kept line starts with "(", and there are at most as many as the lines |
| UserPermissions.KeptAll | Validaciones_Generales/view_user_permissions/Generar_Excel_Users.py:52 | every line that starts with "(" once stripped is kept, stripped |
| UserPermissions.SudoLinux | Validaciones_Generales/view_user_permissions/Generar_Excel_Users.py:47-74 | no sudo iff no listing and a denial phrase; restricted iff a listing with "!/sbin/su"; full iff one line granting all; limited otherwise |
| UserPermissions.SudoSolaris | Validaciones_Generales/view_user_permissions/Generar_Excel_Users_Solaris.py:59-79 | no sudo iff no listing and a denial phrase; full iff one unrestricted line granting all; restricted iff a line with "!"; limited otherwise |
| UserPermissions.SolarisFullSudo | Validaciones_Generales/view_user_permissions/Generar_Excel_Users_Solaris.py:66-70 | full sudo means one command line granting all with no "!" |
| UserPermissions.ActivityOf | Validaciones_Generales/view_user_permissions/Generar_Excel_Users_Solaris.py:43-54 | shell lock first, then a UID outside 100..59999, then a locked password, otherwise active |
| UserPermissions.InactiveReasons | Validaciones_Generales/view_user_permissions/Generar_Excel_Users_Solaris.py:46-51 | a user is inactive iff the shell locks or the UID is out of range |
| UserPermissions.LinuxEntry | Validaciones_Generales/view_user_permissions/Generar_Excel_Users.py:26-45 | an entry is skipped unless it has two parts and its id line parses |
| UserPermissions.LinuxCells | Validaciones_Generales/view_user_permissions/Generar_Excel_Users.py:77-84 | eight cells per row |
| UserPermissions.SolarisEntry | Validaciones_Generales/view_user_permissions/Generar_Excel_Users_Solaris.py:26-57 | an entry is skipped unless it has four parts and its id line parses |
| UserPermissions.SolarisCells | Validaciones_Generales/view_user_permissions/Generar_Excel_Users_Solaris.py:81-92 | twelve cells per row |
| UserPermissions.EntryRows | Validaciones_Generales/view_user_permissions/Generar_Excel_Users.py:26-85 | the rows of one host's entries, never more than the entries |
| UserPermissions.EntryRowsStep | Validaciones_Generales/view_user_permissions/Generar_Excel_Users.py:26-85 | a skipped entry adds no row, an accepted one adds its row |
| UserPermissions.EntryRowsEnd | Validaciones_Generales/view_user_permissions/Generar_Excel_Users.py:26-85 | once an entry ends the run the later entries change nothing |
| UserPermissions.AllRowsEnd | Validaciones_Generales/view_user_permissions/Generar_Excel_Users.py:22-85 | once a host ends the run the later hosts change nothing |
| UserPermissions.AllRowsStep | Validaciones_Generales/view_user_permissions/Generar_Excel_Users.py:22-85 | each host appends its entries' rows |
| UserPermissions.ExportUsers | Validaciones_Generales/view_user_permissions/Generar_Excel_Users.py:7-88 | the header in row 0, then every host's rows |
| UserPermissions.WriteHosts | Validaciones_Generales/view_user_permissions/Generar_Excel_Users.py:19-85 | the outer loop writes exactly the rows of every host |
| UserPermissions.WriteHost | Validaciones_Generales/view_user_permissions/Generar_Excel_Users.py:22-85 | one host's rows are appended after the rows so far |
| UserPermissions.WriteEntries | Validaciones_Generales/view_user_permissions/Generar_Excel_Users.py:26-85 | the inner loop writes each accepted entry at the next row |
| UserPermissions.ExportLinux | Validaciones_Generales/view_user_permissions/Generar_Excel_Users.py:7-88 | the Linux script's sheet |
| UserPermissions.ExportSolaris | Validaciones_Generales/view_user_permissions/Generar_Excel_Users_Solaris.py:7-95 | the Solaris script's sheet |
| UserPermissions.RowWidths | Validaciones_Generales/view_user_permissions/Generar_Excel_Users.py:77-84 | every row has one cell per header |
| UserPermissions.RowsCountAccepted | Validaciones_Generales/view_user_permissions/Generar_Excel_Users.py:85 | the row counter moves only for accepted entries |
| DockerStats.ToFloatPercent | Check_Docker/scripts/docker_stats_to_excel.py:33-42 | 0.0 for None and for any text the percentage pattern does not read |
| DockerStats.DecimalTextValue | Check_Docker/scripts/docker_stats_to_excel.py:41-42 | digits with a fraction read as their decimal value |
| DockerStats.PercentOfText | Check_Docker/scripts/docker_stats_to_excel.py:40-42 | a stripped text is read by the pattern, 0.0 when it does not match |
| DockerStats.PercentPlain | Check_Docker/scripts/docker_stats_to_excel.py:41-42 | "12.34" reads as 12.34 |
| DockerStats.PercentSign | Check_Docker/scripts/docker_stats_to_excel.py:41-42 | "12.34%" and "12.34 %" read as 12.34 |
| DockerStats.RStripBlanks | Check_Docker/scripts/docker_stats_to_excel.py:40 | trailing blanks are exactly what stripping removes at the end |
| DockerStats.ToIntRoundTrip | Check_Docker/scripts/docker_stats_to_excel.py:44-52 | an integer, or its decimal text, is returned unchanged |
| DockerStats.RiskOf | Check_Docker/scripts/docker_stats_to_excel.py:54-69 | HIGH from `hi` up, MED from `med` below `hi`, OK below `med`; a value `float` cannot read counts as 0.0 |
| DockerStats.RiskMonotone | Check_Docker/scripts/docker_stats_to_excel.py:65-69 | raising the value never lowers the risk |
| DockerStats.HostVcpus | Check_Docker/scripts/docker_stats_to_excel.py:95 | `max(1, int(float(x)))`: the truncated value when that is at least 1, else 1 |
| DockerStats.ReadSettings | Check_Docker/scripts/docker_stats_to_excel.py:77-95 | anything but nine arguments exits 1; ValueError iff a threshold or the vCPU count does not convert; otherwise the six converted thresholds and the vCPU count |
| DockerStats.FirstTruthy | Check_Docker/scripts/docker_stats_to_excel.py:123-124 | `a or b or c or ""`: the first truthy value, else the empty text |
| DockerStats.Normalise | Check_Docker/scripts/docker_stats_to_excel.py:123-146 | the id and name fall back through their alternative keys; CPU and memory shares and PIDs are converted |
| DockerStats.NormaliseAll | Check_Docker/scripts/docker_stats_to_excel.py:117-146 | records that are not dicts are skipped; every dict gives one row, in order |
| DockerStats.FinalRow | Check_Docker/scripts/docker_stats_to_excel.py:184-211 | a row in the final column order, with the three risk levels and the CPU share of the host |
| DockerStats.Body | Check_Docker/scripts/docker_stats_to_excel.py:149-211 | one final row per record, in order |
| DockerStats.Header | Check_Docker/scripts/docker_stats_to_excel.py:201-207 | the header is the final column list |
| DockerStats.ExportDocker | Check_Docker/scripts/docker_stats_to_excel.py:75-217 | exit 1 for a wrong argument count, ValueError for an unreadable threshold, exit 1 for a missing or malformed file or a root that is not a list; otherwise the table, always |
| DockerStats.BuildTable | Check_Docker/scripts/docker_stats_to_excel.py:148-217 | the loop and the final columns build the table of `Table` |
| DockerStats.Table | Check_Docker/scripts/docker_stats_to_excel.py:148-217 | the header first, and one row per dict record after it |
| DockerStats.TableRow | Check_Docker/scripts/docker_stats_to_excel.py:148-217 | row `k + 1` is the final-column row of the `k`-th dict record after normalisation, in input order |
| ReplaceIp.ToInt | replace_ip_project/scripts/genera_reporte_replace_ip.py:9-36 | the default for None, lists, dicts, blank text and text that neither `int` nor `float` reads; a bool as 0 or 1; an int as it is; integer text as its value; decimal text and floats truncated toward zero |
| ReplaceIp.ToIntTextRoundTrip | replace_ip_project/scripts/genera_reporte_replace_ip.py:23-29 | the text of an integer reads back as that integer |
| ReplaceIp.ToIntDecimalText | replace_ip_project/scripts/genera_reporte_replace_ip.py:31-33 | digits, a point and digits are truncated to the whole part |
| ReplaceIp.ToIntOfDecimal | replace_ip_project/scripts/genera_reporte_replace_ip.py:31-33 | a text that is not an integer but a decimal reads as its truncated value |
| ReplaceIp.Escape | replace_ip_project/scripts/genera_reporte_replace_ip.py:64-65 | the escaped text holds no markup character, and text without any is unchanged |
| ReplaceIp.EscapeRoundTrip | replace_ip_project/scripts/genera_reporte_replace_ip.py:64-65 | escaping loses nothing: the text reads back |
| ReplaceIp.BadgeClass | replace_ip_project/scripts/genera_reporte_replace_ip.py:39-40 | "ok" iff "OK", "fail" iff "FAIL", "skip" otherwise |
| ReplaceIp.Text | replace_ip_project/scripts/genera_reporte_replace_ip.py:41 | only a text can be escaped |
| ReplaceIp.Badge | replace_ip_project/scripts/genera_reporte_replace_ip.py:39-41 | a badge is produced iff the status is a text |
| ReplaceIp.ParseLine | replace_ip_project/scripts/genera_reporte_replace_ip.py:44-51 | no trailing newline remains; a number only when the line has a colon; otherwise the whole line |
| ReplaceIp.ParseLineNumbered | replace_ip_project/scripts/genera_reporte_replace_ip.py:44-48 | "n:text" splits back into n and the text, colons in the text kept |
| ReplaceIp.LineRowOf | replace_ip_project/scripts/genera_reporte_replace_ip.py:59-67 | a row iff the item is a text |
| ReplaceIp.RenderedLines | replace_ip_project/scripts/genera_reporte_replace_ip.py:54-68 | the placeholder for a false value, TypeError for a true value that is not iterable |
| ReplaceIp.RenderedTextLines | replace_ip_project/scripts/genera_reporte_replace_ip.py:58-68 | a non-empty list of texts gives one row per line in order |
| ReplaceIp.RenderLines | replace_ip_project/scripts/genera_reporte_replace_ip.py:54-68 | the loop builds exactly the rendered lines |
| ReplaceIp.Totals | replace_ip_project/scripts/genera_reporte_replace_ip.py:133 | the totals of a dict host whose `totals` is false or a dict |
| ReplaceIp.TotalsAsWritten | replace_ip_project/scripts/genera_reporte_replace_ip.py:84-86 | without `or {}`: only a dict host whose `totals` is a dict |
| ReplaceIp.Count | replace_ip_project/scripts/genera_reporte_replace_ip.py:137-141 | a missing count is 0 |
| ReplaceIp.HostCount | replace_ip_project/scripts/genera_reporte_replace_ip.py:137-141 | a host card's count is the count of its totals |
| ReplaceIp.HostCountAsWritten | replace_ip_project/scripts/genera_reporte_replace_ip.py:84-86 | the global sums' per-host read fails iff the as-written totals do |
| ReplaceIp.SumTotalAddsHost | replace_ip_project/scripts/genera_reporte_replace_ip.py:84-86 | adding a host adds its card's count to the global sum |
| ReplaceIp.AsWrittenAgrees | replace_ip_project/scripts/genera_reporte_replace_ip.py:84-86 | both readings agree when every totals is a dict or absent |
| ReplaceIp.NullTotalsCrash | replace_ip_project/scripts/genera_reporte_replace_ip.py:84-86 | `"totals": null` makes the global sum raise while its card reads zero |
| ReplaceIp.OrElse | replace_ip_project/scripts/genera_reporte_replace_ip.py:157-159 | `value or default` |
| ReplaceIp.FileParts | replace_ip_project/scripts/genera_reporte_replace_ip.py:154-180 | AttributeError for a non-dict item or a path that is not text, the badge's error, then the first box that fails; otherwise the title with the escaped path and the badge, and the before and after boxes rendered from the item's lines |
| ReplaceIp.HostParts | replace_ip_project/scripts/genera_reporte_replace_ip.py:127-182 | the totals' error, AttributeError for a text field that is not text, the file list's TypeError, then the first failing file block; it succeeds exactly when none of these fail, and then gives the head of `HostHead`, every file's block in order, and the close |
| ReplaceIp.HostHead | replace_ip_project/scripts/genera_reporte_replace_ip.py:137-151 | the card opens with the escaped host name (`unknown` when absent), then the meta line with the escaped path, old IP, new host and date, whose five counts are the host's `files_scanned`, `files_with_ip_before`, `ok`, `fail` and `skipped` totals |
| ReplaceIp.FileList | replace_ip_project/scripts/genera_reporte_replace_ip.py:134 | a false files value gives no blocks |
| ReplaceIp.WriteHost | replace_ip_project/scripts/genera_reporte_replace_ip.py:143-182 | the loop builds exactly the host's card |
| ReplaceIp.Page | replace_ip_project/scripts/genera_reporte_replace_ip.py:77-184 | the page with the global sums as written: their first exception when one raises; otherwise (through `PageWith`) exit 1 for a non-list root, the load errors, and title, summary, cards and page end, built whenever the sums and the cards are |
| ReplaceIp.PageWith | replace_ip_project/scripts/genera_reporte_replace_ip.py:77-184 | FileNotFoundError, JSONDecodeError, exit 1 for a non-list root; the page is built iff the three sums and every card are, and then it is the title, the summary of the sums, the cards and the page end |
| ReplaceIp.PageAgrees | replace_ip_project/scripts/genera_reporte_replace_ip.py:84-86 | where every host's totals are a dict or absent, the page as written is the corrected page |
| ReplaceIp.NullTotalsPage | replace_ip_project/scripts/genera_reporte_replace_ip.py:84-86 | a host with null totals makes the page as written raise AttributeError, while the corrected page is built |
| ReplaceIp.ExportReplaceIp | replace_ip_project/scripts/genera_reporte_replace_ip.py:71-188 | exit 2 without both options; otherwise the page as written |
| ElasticAgent.SafeBool | Elastic_Agent_SIEM/Salidas_Playbooks/export_excel_elastic_agent.py:55-65 | a bool as it is, None false, a number true iff non-zero, a text true iff stripped and lower-cased it is one of the yes-words, a list or dict false |
| ElasticAgent.SafeBoolStripped | Elastic_Agent_SIEM/Salidas_Playbooks/export_excel_elastic_agent.py:61-62 | blanks around a text do not change its truth |
| ElasticAgent.NormStr | Elastic_Agent_SIEM/Salidas_Playbooks/export_excel_elastic_agent.py:68-73 | the default for None or blank text, else the stripped text, never empty when the default is not |
| ElasticAgent.NormStrIdempotent | Elastic_Agent_SIEM/Salidas_Playbooks/export_excel_elastic_agent.py:68-73 | normalising twice equals normalising once |
| ElasticAgent.LoadedRecords | Elastic_Agent_SIEM/Salidas_Playbooks/export_excel_elastic_agent.py:76-94 | exit 1 for a missing or malformed file or a root that is not a list; otherwise the dict items in order |
| ElasticAgent.LoadJson | Elastic_Agent_SIEM/Salidas_Playbooks/export_excel_elastic_agent.py:89-94 | the filtering loop yields exactly the dict items of the list, in order |
| ElasticAgent.VersionFill | Elastic_Agent_SIEM/Salidas_Playbooks/export_excel_elastic_agent.py:192-194 | the version cell is red iff the upper-cased version is "NO INSTALADO" |
| ElasticAgent.ReadHost | Elastic_Agent_SIEM/Salidas_Playbooks/export_excel_elastic_agent.py:136-153 | text fields are never empty, absent flags are false |
| ElasticAgent.ReEnrollRow | Elastic_Agent_SIEM/Salidas_Playbooks/export_excel_elastic_agent.py:155-204 | eleven cells; state and OK share the ok light; re-enroll OK yellow iff re-enroll did not run; restart light green iff "SI" |
| ElasticAgent.ServiceRow | Elastic_Agent_SIEM/roles/elastic_agent_siem/files/export_excel_elastic_agent.py:122-163 | eight cells; state and OK share the ok light; restart light green iff "SI"; version red iff "NO INSTALADO" |
| ElasticAgent.CellLengths | Elastic_Agent_SIEM/Salidas_Playbooks/export_excel_elastic_agent.py:44-51 | the length of every cell text, header row first |
| ElasticAgent.Autosize | Elastic_Agent_SIEM/Salidas_Playbooks/export_excel_elastic_agent.py:44-52 | every width is the longest text plus two, capped at 90 |
| ElasticAgent.ExportElastic | Elastic_Agent_SIEM/Salidas_Playbooks/export_excel_elastic_agent.py:97-209 | wrong argument count exits 2, a failed load exits 1; otherwise the header, one row per dict record and each width the longest text plus two, at most 90 |
| ElasticAgent.ExportReEnroll | Elastic_Agent_SIEM/Salidas_Playbooks/export_excel_elastic_agent.py:97-209 | exit 2, exit 1, or for loadable input the eleven-column header, a row per record and the widths |
| ElasticAgent.ExportService | Elastic_Agent_SIEM/roles/elastic_agent_siem/files/export_excel_elastic_agent.py:88-168 | exit 2, exit 1, or for loadable input the eight-column header, a row per record and the widths |
| NessusReport.Nz | nessus-agent-project/scripts/nessus_excel_report.py:115-123 | a false value or blank text gives the default, a text is stripped, any other truthy value is kept |
| NessusReport.NzIdempotent | nessus-agent-project/scripts/nessus_excel_report.py:115-123 | applying `nz` twice equals applying it once |
| NessusReport.Or | agents-unified-awx/roles/nessus_agent/files/nessus_excel_report.py:104 | `a or b`: `a` when truthy, else `b` |
| NessusReport.HostAtom | nessus-agent-project/scripts/nessus_excel_report.py:65 | the sort key `h.get("host") or ""`: "" for a false host, the text for a text host, none for a non-dict record |
| NessusReport.SortedHosts | nessus-agent-project/scripts/nessus_excel_report.py:64-68 | a permutation of the records; sorted stably by host when every key is comparable, else the input order unchanged |
| NessusReport.Mark | nessus-agent-project/scripts/nessus_excel_report.py:139-141 | the tick iff the flag is truthy, else the cross |
| NessusReport.ProjectRow | nessus-agent-project/scripts/nessus_excel_report.py:132-149 | fifteen cells: host through `nz` with "", three marks, the rest through `nz` with "N/A" |
| NessusReport.LinkStatus | agents-unified-awx/roles/nessus_agent/files/nessus_excel_report.py:97-100 | the record's link status when truthy, else "Connected to Manager" or "Not linked to a manager" by `linked` |
| NessusReport.RoleCell | agents-unified-awx/roles/nessus_agent/files/nessus_excel_report.py:102-120 | host and hostname (falling back on ansible_hostname) blank when missing, marks in columns 8-10, the link status with its fallback, "N/A" elsewhere; every cell after the first two is truthy; cells of a scalar record can be stored |
| NessusReport.RoleRow | agents-unified-awx/roles/nessus_agent/files/nessus_excel_report.py:102-120 | seventeen cells, one per header, each the column's cell; those after the first two are truthy and a scalar record's can be stored |
| NessusReport.NzKeepsText | nessus-agent-project/scripts/nessus_excel_report.py:121-123 | a text without surrounding blanks passes through unchanged |
| NessusReport.LinkStatusFallback | agents-unified-awx/roles/nessus_agent/files/nessus_excel_report.py:97-113 | the link-status cell shows the linked fallback instead of "N/A" |
| NessusReport.HostRow | nessus-agent-project/scripts/nessus_excel_report.py:132-150 | AttributeError for a non-dict record, ValueError for a list or dict cell, else the row |
| NessusReport.HostRowsDone | nessus-agent-project/scripts/nessus_excel_report.py:132-150 | records of scalars give one row per record in sorted order |
| NessusReport.WrapColumns | nessus-agent-project/scripts/nessus_excel_report.py:155-160 | a column wraps iff its header is "Link Output" or "Error" |
| NessusReport.ProjectWrap | nessus-agent-project/scripts/nessus_excel_report.py:157-160 | only columns 13 and 14 of the project sheet wrap |
| NessusReport.RoleWrap | agents-unified-awx/roles/nessus_agent/files/nessus_excel_report.py:124-129 | only columns 15 and 16 of the role sheet wrap |
| NessusReport.ExportNessus | nessus-agent-project/scripts/nessus_excel_report.py:30-189 | exit 1 for wrong arguments, 2 missing file, 3 malformed JSON, 4 a non-list root, 5 a failed save; otherwise header, sorted rows, wrap flags and widths (longest truthy cell plus two, at most 60) |
| NessusReport.ExportProjectReport | nessus-agent-project/scripts/nessus_excel_report.py:30-189 | exits 1 to 5 and the row exceptions as in `ExportNessus`; otherwise the fifteen headers, the sorted rows, the wrap flags and the widths |
| NessusReport.ExportRoleReport | agents-unified-awx/roles/nessus_agent/files/nessus_excel_report.py:23-149 | exits 1 to 5 and the row exceptions as in `ExportNessus`; otherwise the seventeen headers, the sorted rows, the wrap flags and the widths |
| Uptime.SafeInt | General/Uptime/genera_excel_uptime.py:32-36 | `int(value)` when it converts, the default otherwise; None, lists and dicts give the default |
| Uptime.SafeIntOfText | General/Uptime/genera_excel_uptime.py:32-34 | the decimal text of an integer reads back as itself |
| Uptime.StrippedText | General/Uptime/genera_excel_uptime.py:60-61 | a false value reads "", a text is stripped, any other value raises AttributeError |
| Uptime.UpSeconds | General/Uptime/genera_excel_uptime.py:62 | seconds that do not convert read 0 |
| Uptime.UpDays | General/Uptime/genera_excel_uptime.py:63 | the given days, or else the seconds floor-divided by 86400 |
| Uptime.Normalise | General/Uptime/genera_excel_uptime.py:59-70 | AttributeError for a non-dict record; otherwise the stripped names, the seconds and the days |
| Uptime.SortKeyCmp | General/Uptime/genera_excel_uptime.py:72 | keys compare by days descending, then by inventory name |
| Uptime.SortRecords | General/Uptime/genera_excel_uptime.py:72 | a permutation, ordered by days descending and then by name |
| Uptime.SortRecordsStable | General/Uptime/genera_excel_uptime.py:72 | records sharing a key keep their input order |
| Uptime.MaxDays | General/Uptime/genera_excel_uptime.py:108 | the largest day count, attained by some record |
| Uptime.MinDays | General/Uptime/genera_excel_uptime.py:109 | the smallest day count, attained by some record |
| Uptime.SummaryRows | General/Uptime/genera_excel_uptime.py:103-109 | the generation time and host count, plus max and min days when there are hosts |
| Uptime.CellText | General/Uptime/genera_excel_uptime.py:26 | the length of `str(value)`, 0 for no value |
| Uptime.Autosize | General/Uptime/genera_excel_uptime.py:20-29 | every width is the longest text plus two, at most 60 |
| Uptime.WriteSheets | General/Uptime/genera_excel_uptime.py:75-115 | one row per record in order, the autofilter down to the last row, the summary, and the widths of both sheets (longest plus two, at most 60) |
| Uptime.ExportUptime | General/Uptime/genera_excel_uptime.py:39-121 | exit 2 without both options; FileNotFoundError, JSONDecodeError, ValueError for a non-list root, or the first record's exception; otherwise, always, the sorted sheets, the filter and the widths of both sheets |
| TrendMicro.Norm | trendmicro-sensor-project/scripts/generate_excel.py:69-77 | None is "", a list its items' texts joined by blanks, a dict its JSON text, a text itself |
| TrendMicro.NormWordsRoundTrip | trendmicro-sensor-project/scripts/generate_excel.py:73-74 | words without blanks read back from their `norm` text by splitting at blanks |
| TrendMicro.State | trendmicro-sensor-project/scripts/generate_excel.py:86-103 | the record's own state when not None; else the services map's entry, "no instalado" when absent; AttributeError when the map is truthy but not a dict |
| TrendMicro.ReadStates | trendmicro-sensor-project/scripts/generate_excel.py:81-103 | all four states read, or AttributeError |
| TrendMicro.Field | trendmicro-sensor-project/scripts/generate_excel.py:106-122 | a missing key gives "" |
| TrendMicro.SensorRow | trendmicro-sensor-project/scripts/generate_excel.py:110-123 | twelve cells: plain members through `norm`, the four states in columns 8-11 |
| TrendMicro.DeployRow | agents-unified-awx/roles/trendmicro/files/trendmicro_deploy_excel.py:116-131 | fourteen cells: plain members through `norm`, the four states in columns 10-13 |
| TrendMicro.HostRow | trendmicro-sensor-project/scripts/generate_excel.py:80-124 | AttributeError for a non-dict record or unreadable states, else the row |
| TrendMicro.FinalFill | trendmicro-sensor-project/scripts/generate_excel.py:127-132 | green iff the stripped, upper-cased final state is "OK", orange otherwise |
| TrendMicro.FinalFillStripped | trendmicro-sensor-project/scripts/generate_excel.py:128 | surrounding blanks do not change the fill |
| TrendMicro.Records | trendmicro-sensor-project/scripts/generate_excel.py:28-33 | FileNotFoundError, JSONDecodeError; a single object becomes a list of one |
| TrendMicro.TextLengths | trendmicro-sensor-project/scripts/generate_excel.py:135-141 | the length of every text of the sheet, header first |
| TrendMicro.PaintFills | trendmicro-sensor-project/scripts/generate_excel.py:126-132 | each row's final-state fill follows its own final state |
| TrendMicro.ExportTrend | trendmicro-sensor-project/scripts/generate_excel.py:20-146 | exit 1 with fewer than two arguments, load failures propagate; otherwise header, rows, fills and widths between 12 and 60 |
| TrendMicro.ExportSensor | trendmicro-sensor-project/scripts/generate_excel.py:20-146 | exit 1, load and row exceptions as in `ExportTrend`; otherwise the twelve headers, rows, fills and widths between 12 and 60 |
| TrendMicro.ExportDeploy | agents-unified-awx/roles/trendmicro/files/trendmicro_deploy_excel.py:20-154 | exit 1, load and row exceptions as in `ExportTrend`; otherwise the fourteen headers, rows, fills and widths between 12 and 60 |
| OsInventory.ReadRow | os_inventory_project/scripts/convert_json_to_excel.py:85-91 | AttributeError for a non-dict item, else the four columns with "N/A" for each absent key |
| OsInventory.Rank | os_inventory_project/scripts/convert_json_to_excel.py:100 | numbers (bools as 0 and 1, floats by their floor) rank in the first tier, texts in the second, missing values in the third; a list or dict cannot be ranked |
| OsInventory.RankTiers | os_inventory_project/scripts/convert_json_to_excel.py:100 | numbers sort before texts and texts before missing values; integers by value, floats by floor, texts by code points |
| OsInventory.SortRows | os_inventory_project/scripts/convert_json_to_excel.py:97-100 | TypeError iff a sort column holds a list or dict; otherwise a permutation, sorted by the key, stable |
| OsInventory.TextKeyCmp | os_inventory_project/scripts/convert_json_to_excel.py:100 | text keys compare by inventory name, then by hostname |
| OsInventory.SortedByNames | os_inventory_project/scripts/convert_json_to_excel.py:100 | rows of texts come out ordered by inventory name and then hostname |
| OsInventory.CellText | os_inventory_project/scripts/convert_json_to_excel.py:56-57 | the measured length is that of `str(value)`, "None" for a missing value |
| OsInventory.FilterRef | os_inventory_project/scripts/convert_json_to_excel.py:123-124 | the filter starts at "A1:D" and its row number reads back as the number of data rows plus one |
| OsInventory.ExportInventory | os_inventory_project/scripts/convert_json_to_excel.py:61-131 | exit 1 for a missing file or a non-list root, JSONDecodeError, AttributeError or TypeError as they arise; otherwise the sorted rows, widths (longest plus two, at most 80) and the filter |
| NessusAudit.EstadoFormat | Validaciones_Generales/generar_excel_nessus.py:47-49 | green iff the lower-cased state is "instalado", red otherwise |
| NessusAudit.FinalFormat | Validaciones_Generales/generar_excel_nessus.py:51-57 | green iff the lower-cased final state is "desinstalado", red iff "instalado", yellow iff neither |
| NessusAudit.LowerIdempotent | Validaciones_Generales/generar_excel_nessus.py:48-54 | lower-casing twice equals lower-casing once |
| NessusAudit.FormatsIgnoreCase | Validaciones_Generales/generar_excel_nessus.py:48-54 | a state and its lower-case form get the same colours |
| NessusAudit.ReadEntry | Validaciones_Generales/generar_excel_nessus.py:36-45 | AttributeError for a non-dict item; TypeError when a list or dict reaches the hostname, IP or version cell; then AttributeError for a state that is not text; Done exactly otherwise, with absent keys taking their defaults |
| NessusAudit.RowWrites | Validaciones_Generales/generar_excel_nessus.py:43-59 | five writes in one row, in column order, the states painted by their colour rules |
| NessusAudit.HeaderWrites | Validaciones_Generales/generar_excel_nessus.py:27-32 | five header writes in row 0 with the header format |
| NessusAudit.Records | Validaciones_Generales/generar_excel_nessus.py:13-15 | FileNotFoundError, JSONDecodeError; the items of a list, the keys of a dict, the characters of a text; TypeError for any other root |
| NessusAudit.Body | Validaciones_Generales/generar_excel_nessus.py:34-61 | five writes per record |
| NessusAudit.BodyLayout | Validaciones_Generales/generar_excel_nessus.py:35-61 | record `k` occupies writes `5k` to `5k+4`, all in row `k+1` |
| NessusAudit.WriteRecords | Validaciones_Generales/generar_excel_nessus.py:34-61 | the loop ends with the first record's exception, or with the writes of every record in order |
| NessusAudit.ExportAudit | Validaciones_Generales/generar_excel_nessus.py:13-66 | a failed load or record propagates; otherwise header, body and the autofilter from (0,0) to (n,4) |
| NessusAudit.SheetLayout | Validaciones_Generales/generar_excel_nessus.py:27-64 | the header first, record `k` in row `k+1`, and the filter down to the last record |
| ZabbixAudit.Ordered | Zabbix_agent/scripts/export_audit_excel.py:53-63 | the present base columns first in base order, then the rest in their order; a permutation of the columns; every cell kept |
| ZabbixAudit.ExportAudit | Zabbix_agent/scripts/export_audit_excel.py:30-73 | exit 1 with too few arguments, 2 for a missing file, 3 for a non-list or empty list; JSONDecodeError; otherwise, always, the ordered frame and widths between 12 and 60 |
| ZabbixAudit.WrittenLength | Zabbix_agent/scripts/export_audit_excel.py:66-73 | a list or dict cell counts the length of its text, even when empty; any other cell as the width loop counts it |
| Ds2022.RenamesApply | Trendmicro/scripts/json_to_excel_ds2022.py:28-39 | each renamed column gets its display name, the typo fixed |
| Ds2022.RenamesSettle | Trendmicro/scripts/json_to_excel_ds2022.py:28-39 | renaming twice equals renaming once |
| Ds2022.Load | Trendmicro/scripts/json_to_excel_ds2022.py:21-25 | FileNotFoundError for a missing file, ValueError for bad JSON or a non-list of objects, else the frame of the records |
| Ds2022.Arrange | Trendmicro/scripts/json_to_excel_ds2022.py:28-55 | ValueError iff renaming gives two columns one name; else preferred columns first, a permutation, cells kept under their new names |
| Ds2022.TypoClash | Trendmicro/scripts/json_to_excel_ds2022.py:28-55 | both the misspelt and the correct inventory column end in ValueError |
| Ds2022.Prepared | Trendmicro/scripts/json_to_excel_ds2022.py:21-55 | load, rename and reorder, failing only with FileNotFoundError or ValueError |
| Ds2022.PreparedColumns | Trendmicro/scripts/json_to_excel_ds2022.py:42-55 | a saved frame keeps every renamed column, the preferred ones first in preferred order, the others after in their order |
| Ds2022.ExportReport | Trendmicro/scripts/json_to_excel_ds2022.py:21-59 | the frame the first script saves |
| Ds2022.Paths | Trendmicro/scripts/check_certificados_excel.py:11-16 | the first two arguments when given, else the default paths |
| Ds2022.TextLength | Trendmicro/scripts/check_certificados_excel.py:64-66 | a missing value counts as "nan", a text by its length |
| Ds2022.ExportCertificates | Trendmicro/scripts/check_certificados_excel.py:11-66 | load and arrange failures propagate; otherwise the frame at the output path, widths the longest text plus two, at most 60 |

## Left out

- Writing the files: openpyxl, xlsxwriter, `pandas.to_excel`, fonts, fills as objects, alignments, freeze panes, `wb.save`, `os.makedirs` and the printed messages. The model keeps which format or fill each cell gets, the widths, and the autofilter in `OsInventory`, `NessusAudit`, `RsyncReport` and `Uptime`. Freeze panes are not modelled, and neither are the autofilters set to `ws.dimensions` in both `nessus_excel_report.py` scripts (line 179 of the project's, line 141 of the role's) and in `check_certificados_excel.py` (line 62).
- NessusAudit.ExportAudit: the fixed width of 35 that `generar_excel_nessus.py` gives columns A to E is not modelled.
- JSON decoding: the model starts from the decoded document. The text of a float is carried with its value, and the two are not related (shortest round-trip printing).
- Floating-point arithmetic: decimal text denotes its exact value. DockerStats.FinalRow computes the CPU share per host as the exact quotient; its rounding to two places in `docker_stats_to_excel.py` (line 193) is not modelled.
- Python `int()` and `float()` extras are not modelled: underscores, non-ASCII digits, exponents, `inf` and `nan`.
- PyText.Lower: case mapping covers ASCII and Latin-1 only; the rest of the Unicode database is not modelled.
- Regular expressions are modelled as scanners over the patterns the scripts use: the OpenSSL version, the percentage, and the parenthesised groups of `id`. There is no general regex engine. The scanners' `\d` matches ASCII digits only, while Python's also matches other Unicode digits. The OpenSSL suffix class `[a-z]` under `re.I` takes the ASCII letters and U+212A KELVIN SIGN, and the literal's `s` also takes U+017F LATIN SMALL LETTER LONG S; Python's suffix class also takes U+017F, U+0131 LATIN SMALL LETTER DOTLESS I and U+0130 LATIN CAPITAL LETTER I WITH DOT ABOVE, which the model's does not.
- `packaging.version` beyond final releases: epochs and pre-, post-, dev- and local segments do not parse in the model.
- `datetime.now()` is a parameter, and so is the timestamp in the OS inventory output name.
- The pandas import failure (exit 2) of `convert_json_to_excel.py` is not modelled.
- The openpyxl import fallback of `check_certificados_excel.py` is not modelled.
- argparse, in `genera_excel_uptime.py` and `genera_reporte_replace_ip.py`, is reduced to whether both required options were given (exit 2 otherwise). Its help text and its other error paths are not modelled.
- Frame.FromRecords: pandas dtype inference is not modelled, here and in the cells and widths of OsInventory.ExportInventory, which go through the same frame. For example, an integer column with a missing value becomes floats and shows "1.0" and "nan".
- JsonValue.ReprStr: `repr` escapes as `\xNN` the non-printable characters of Latin-1 only. Python also writes `\uXXXX` or `\UXXXXXXXX` for the other non-printable characters (such as U+1680, U+2000 to U+200F, U+2028, U+2029, U+202F, U+205F, U+3000, U+FEFF and unassigned code points), which the model leaves as they are; the widths of list and dict cells that hold them are shorter in the model.
- ZabbixAudit.ExportAudit: a JSON list that holds non-objects is modelled as ValueError. pandas would instead build a frame with a column named 0.
- A list or dict cell that pandas writes is modelled as its Python `repr` text, which is what `str()` gives; `DockerStats` keeps such a cell as its value.
- Ds2022.Load: any document other than a list of objects is modelled as ValueError. `pd.read_json` accepts some other shapes, such as a dict of columns.
- Ds2022.TextLength: a missing cell is counted as "nan" (3 characters). pandas prints "None" for a missing value in an object column.
- NessusReport.SortedHosts: a host key that is `True`, a non-zero float or a list counts as incomparable, so the input order is kept. Python would sort such keys among themselves, and `True` and floats together with integers.
- OsInventory.Rank: a float ranks by its floor (the greatest integer not above it), so two floats with the same floor compare equal, and a float ties with the integer equal to its floor.
- openpyxl's refusal of control characters in cell text (IllegalCharacterError) is not modelled.
- ReplaceIp.Page: the page is the sequence of fragments the script appends, with the escaped values each one shows. The fixed markup and the style sheet are not modelled. `Page` reads the global sums as lines 84-86 do; `CorrectedPage` reads them as the host cards do.

## Findings

| source | as written | input that shows it | evidently intended | confidence | as-written member | corrected member |
|---|---|---|---|---|---|---|
| replace_ip_project/scripts/genera_reporte_replace_ip.py:84-86 | the global OK / FAIL / SKIPPED sums read `h.get("totals", {}).get(...)` without the `or {}` that the host card applies at line 133 | a host record `{"totals": null}`: `None.get` raises AttributeError, while its card reads zero counts | a null `totals` counts as zero in the global sums, as it does on the card | not executed | ReplaceIp.NullTotalsPage | ReplaceIp.SumTotalAddsHost |
