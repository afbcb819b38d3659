# net-api record codec, modelled in Dafny

This project models the record codec protocol of the net-stalker `net-api` crates
(`net-agent-api`, `net-reporter-api`, `net-timescale-api`). Every DTO of those crates
encodes itself as one Amazon Ion root struct and decodes itself back. `encode` drives an
`ion_rs` writer: `step_in`, `set_field_name`, `write_*`, `step_out`, `flush`. `decode`
drives an `ion_rs` reader: `next`, `current`, `step_in`, `read_*`, `read_all_elements`,
`step_out`. The model states what each DTO writes and what it reads back, and proves the
round trips and the losses.

## Structure

- `wrappers.dfy` (`Wrappers`): `Option` and `Result`.
- `ion.dfy` (`Ion`): the Ion data model the codecs use. It has typed nulls, bools, 64-bit
  ints, strings, blobs, lists and structs. A struct is an ordered sequence of named fields,
  because the decoders read fields by position. It also has the `as_*` accessors and
  `Struct::get`.
- `ion_bytes.dfy` (`IonBytes`): the byte boundary `Serialize`/`Parse`. A child's bytes
  cross it when they become a blob in the parent. The pair is a small self-delimiting
  encoding of its own, and its round trip `ParseSerialize` is proved, not assumed.
- `ion_writer.dfy` (`IonWriter`): the writer as a class. It holds the finished top-level
  values, a stack of open containers and the pending field name. Its methods carry the
  writer's rules as preconditions:
  - `step_out` needs an open container;
  - output happens only with no container open;
  - inside a struct, a value needs a field name, and the name labels the next value only.
- `ion_reader.dfy` (`IonReader`): the reader as a cursor class with one level per entered
  container. `step_out` past the root fails, which the source's `should_panic` tests
  assert.
- `codec.dfy` (`Codec`): the idioms every DTO repeats, as writer and reader methods with
  contracts, plus the positional decode functions they are proved against:
  - a named scalar;
  - a nullable scalar, read laxly (a missing position is taken as absent) or strictly
    (a missing position fails like the source's `todo!`);
  - a list;
  - a presence-flag list ("mode" then list, or a null bool and no list);
  - an inline struct and a list of inline structs.
- One module per DTO. Each module has:
  - the datatype;
  - `ToElem`, the wire layout;
  - `FromChildren`/`FromStream`/`FromBytes`, the positional reading `decode` performs;
  - `Encode`, a method driving the writer;
  - `Read`/`Decode`, methods driving the reader;
  - the lemmas.
  A DTO that travels inside another one also has the parent-side members:
  - `BlobOf`/`FromBlob` and the loops over a list of blobs;
  - or the inline-struct forms read by field name.
- The type tag of each DTO (`get_type`/`get_data_type`) is the constant `DATA_TYPE` of its
  module, where the source defines one.

Every `unwrap`, `expect` and `todo!` in a decoder becomes a `None` result. It is never a
precondition, so every decode is total.

## Where decoders depart from the common pattern

- Most decoders read a struct's fields by position and never look at the names. The
  timescale decoders of inline structs work differently: they use `get(name).unwrap()`.
  This covers the dashboard charts, the dashboard request's chart requests, and the
  network graph's nodes and edges. The model reads those structs by name
  (`FromStructByName`). `Envelope.ReversedReadsByName` and
  `Envelope.ReversedFailsByPosition` show the difference.
- In the presence-flag filters, a mode of `None` is written as a null bool and its list
  is omitted. A mode of `Some(false)` still writes its list after the mode.
- So the presence-flag filters round-trip only when every list whose mode is `None` is
  empty. Decoding gives `(None, [])`, so a non-empty list with no mode is lost. The round
  trip is proved for these canonical values (`RoundTrip`). For all values,
  decode-after-encode is proved equal to the normalised value (`Reencode`). The loss is
  proved for every other value (`ListWithoutModeIsLost`).

## Model

| member | source | states |
|---|---|---|
| IonWriter.Writer.SetFieldName | net-reporter-api/src/api/network_bandwidth_per_endpoint/network_bandwidth_per_endpoint_filters.rs:81 | only the pending field name changes, to the given name; the output is untouched |
| IonWriter.Writer.StepIn | net-reporter-api/src/api/network_bandwidth_per_endpoint/network_bandwidth_per_endpoint_filters.rs:79 | where a value may be written, opens an empty list or struct on top of the open containers under the pending name |
| IonWriter.Writer.StepOut | net-reporter-api/src/api/network_bandwidth_per_endpoint/network_bandwidth_per_endpoint_filters.rs:90 | needs an open container; the innermost one, finished, becomes the next value of its parent under the name it was opened with |
| IonWriter.Writer.WriteBool | net-reporter-api/src/api/network_bandwidth_per_endpoint/network_bandwidth_per_endpoint_filters.rs:84 | the bool is the next value of the innermost container, under the pending name inside a struct |
| IonWriter.Writer.WriteI64 | net-reporter-api/src/api/network_bandwidth_per_endpoint/network_bandwidth_per_endpoint_filters.rs:111 | the int is the next value of the innermost container, under the pending name inside a struct |
| IonWriter.Writer.WriteString | net-reporter-api/src/api/network_bandwidth_per_endpoint/network_bandwidth_per_endpoint_filters.rs:88 | the string is the next value of the innermost container, under the pending name inside a struct |
| IonWriter.Writer.WriteBlob | net-agent-api/src/api/data_packet.rs:45 | the blob is the next value of the innermost container, under the pending name inside a struct |
| IonWriter.Writer.WriteNull | net-reporter-api/src/api/network_bandwidth_per_endpoint/network_bandwidth_per_endpoint_filters.rs:92 | a null of the given type is the next value of the innermost container, under the pending name inside a struct |
| IonWriter.Writer.Flush | net-reporter-api/src/api/network_bandwidth_per_endpoint/network_bandwidth_per_endpoint_filters.rs:122 | allowed only with no container open; the output becomes the serialisation of the finished top-level values |
| IonWriter.EmitWellFormed | net-reporter-api/src/api/network_bandwidth_per_endpoint/network_bandwidth_per_endpoint_filters.rs:79-121 | writing a value keeps every open frame a list or a struct |
| IonWriter.OpenWellFormed | net-reporter-api/src/api/network_bandwidth_per_endpoint/network_bandwidth_per_endpoint_filters.rs:79-121 | step_in of a list or a struct keeps every open frame a list or a struct |
| IonWriter.CloseWellFormed | net-reporter-api/src/api/network_bandwidth_per_endpoint/network_bandwidth_per_endpoint_filters.rs:79-121 | step_out keeps every open frame a list or a struct |
| IonWriter.Depths | net-reporter-api/src/api/network_bandwidth_per_endpoint/network_bandwidth_per_endpoint_filters.rs:79-121 | step_in adds one open container, a write keeps the depth, step_out removes one |
| IonWriter.NameLabelsNextValue | net-reporter-api/src/api/network_bandwidth_per_endpoint/network_bandwidth_per_endpoint_filters.rs:81-84 | inside a struct, a name set and a value written add exactly the field (name, value) and clear the name |
| IonWriter.TopLevelValue | net-reporter-api/src/api/network_bandwidth_per_endpoint/network_bandwidth_per_endpoint_filters.rs:121-122 | with no container open, a value becomes the last finished top-level value |
| IonWriter.EmptyContainer | net-reporter-api/src/api/network_bandwidth_per_endpoint/network_bandwidth_per_endpoint_filters.rs:86-90 | step_in and an immediate step_out write an empty container of that type |
| IonReader.Reader.Next | net-reporter-api/src/api/network_bandwidth_per_endpoint/network_bandwidth_per_endpoint_filters.rs:135 | the current level moves to its next value; the item is that value, a typed null, or nothing when the level is exhausted |
| IonReader.Reader.StepIn | net-reporter-api/src/api/network_bandwidth_per_endpoint/network_bandwidth_per_endpoint_filters.rs:133 | succeeds exactly on a container, then stands before its first child one level deeper; otherwise nothing changes |
| IonReader.Reader.StepOut | net-timescale-api/src/api/network_graph/network_graph.rs:184-270 | succeeds exactly when the reader is below the top level and returns to the parent level; a step_out past the root fails and changes nothing |
| IonReader.Reader.ReadBool | net-reporter-api/src/api/network_bandwidth_per_endpoint/network_bandwidth_per_endpoint_filters.rs:139 | the current value as a bool, None when it is missing, null or of another type |
| IonReader.Reader.ReadI64 | net-reporter-api/src/api/network_bandwidth_per_endpoint/network_bandwidth_per_endpoint_filters.rs:177 | the current value as an int, None when it is missing, null or of another type |
| IonReader.Reader.ReadString | net-reporter-api/src/api/http_clients/http_client.rs:82 | the current value as a string, None when it is missing, null or of another type |
| IonReader.Reader.ReadBlob | net-agent-api/src/api/data_packet.rs:62 | the current value as a blob, None when it is missing, null or of another type |
| IonReader.Reader.ReadAllElements | net-reporter-api/src/api/network_bandwidth_per_endpoint/network_bandwidth_per_endpoint_filters.rs:142 | the values left in the current level, in order; the level is left exhausted |
| IonWriter.Writer.constructor | net-reporter-api/src/api/request_result/request_result.rs:60-61 | a new writer has no finished values, no open container, no pending name and no output |
| IonReader.Reader.constructor | net-reporter-api/src/api/request_result/request_result.rs:90 | a new reader is at the top level, before the first of the stream's values |
| IonReader.Reader.Current | net-reporter-api/src/api/request_result/request_result.rs:99 | nothing exactly when the cursor is on no value; a typed null of its type exactly on a null; otherwise a value of the element's type |
| Ion.AsString | net-reporter-api/src/api/network_bandwidth_per_endpoint/network_bandwidth_per_endpoint_filters.rs:145 | Some exactly on a string, and then the string it holds; as_text is the same accessor here |
| Ion.AsI64 | net-reporter-api/src/api/http_responses/http_responses_filters.rs:146 | Some exactly on an int, and then the int it holds |
| Ion.AsBool | net-reporter-api/src/api/request_result/request_result.rs:94 | Some exactly on a bool, and then the bool it holds |
| Ion.AsBlob | net-reporter-api/src/api/http_responses_distribution/http_responses_distribution.rs:71 | Some exactly on a blob, and then the bytes it holds |
| Ion.AsSequence | net-timescale-api/src/api/network_graph/network_graph.rs:140 | Some exactly on a list, and then its items in order |
| Ion.AsStruct | net-timescale-api/src/api/dashboard_request.rs:101 | Some exactly on a struct, and then its fields in order |
| Ion.Get | net-timescale-api/src/api/dashboard/dashboard.rs:114-118 | None exactly when no field has the name; otherwise the value of a field with that name |
| Ion.GetFirst | net-timescale-api/src/api/dashboard/dashboard.rs:114-118 | when several fields could match, the first one with the name is the one found |
| IonBytes.ParseSerialize | net-agent-api/src/api/data_packet.rs:35-68 | parsing the bytes made from a stream of values gives that stream back; this is the byte boundary every blob crosses |
| Codec.MapAll | net-reporter-api/src/api/network_bandwidth_per_endpoint/network_bandwidth_per_endpoint_filters.rs:142-147 | Some exactly when every element reads; then as many values as elements, each the reading of the element at the same position |
| Codec.MapAllMapElems | net-reporter-api/src/api/network_bandwidth_per_endpoint/network_bandwidth_per_endpoint_filters.rs:142-147 | elements made one per value read back, in order, as those values when each element reads back to its value |
| Codec.WriteStrings | net-reporter-api/src/api/network_bandwidth_per_endpoint/network_bandwidth_per_endpoint_filters.rs:87-89 | the open list gains exactly the strings, in order |
| Codec.WriteI64s | net-reporter-api/src/api/http_responses/http_responses_filters.rs:88-90 | the open list gains exactly the ints, in order |
| Codec.WriteBlobs | net-timescale-api/src/api/dashboard/dashboard_request.rs:55-57 | the open list gains exactly the blobs, in order |
| Codec.BeginList | net-reporter-api/src/api/network_bandwidth_per_endpoint/network_bandwidth_per_endpoint_filters.rs:85-86 | set_field_name and step_in(List) inside a struct open an empty list under that name on top of it |
| Codec.EndList | net-reporter-api/src/api/network_bandwidth_per_endpoint/network_bandwidth_per_endpoint_filters.rs:90 | step_out of a list opened over a struct makes the list that struct's next field, as the layout expects; the containers around it are as they were |
| Codec.PutBool | net-timescale-api/src/api/filters.rs:55-56 | the next field of the layout, a named bool, is written; the containers around the struct are as they were |
| Codec.PutI64 | net-reporter-api/src/api/network_bandwidth_per_endpoint/endpoint.rs:54-75 | the next field of the layout, a named int, is written; the containers around the struct are as they were |
| Codec.PutString | net-reporter-api/src/api/http_clients/http_client.rs:56-57 | the next field of the layout, a named string, is written; the containers around the struct are as they were |
| Codec.PutBlob | net-agent-api/src/api/data_packet.rs:44-45 | the next field of the layout, a named blob, is written; the containers around the struct are as they were |
| Codec.PutNull | net-reporter-api/src/api/request_result/request_result.rs:74-77 | the next field of the layout, a named typed null, is written; the containers around the struct are as they were |
| Codec.PutStrings | net-timescale-api/src/api/filters.rs:58-63 | the next field of the layout, a named list of the strings in order, is written |
| Codec.PutI64s | net-reporter-api/src/api/http_responses/http_responses_filters.rs:86-91 | the next field of the layout, a named list of the ints in order, is written |
| Codec.PutBlobs | net-timescale-api/src/api/dashboard/dashboard_request.rs:52-58 | the next field of the layout, a named list of the blobs in order, is written |
| Codec.PutOptI64 | net-reporter-api/src/api/network_bandwidth_per_endpoint/network_bandwidth_per_endpoint_filters.rs:109-113 | the next field of the layout is written: the int when present, a null int when absent |
| Codec.PutOptString | net-reporter-api/src/api/http_clients/http_client.rs:59-63 | the next field of the layout is written: the string when present, a null string when absent |
| Codec.FlagFields | net-reporter-api/src/api/network_bandwidth_per_endpoint/network_bandwidth_per_endpoint_filters.rs:81-93 | one field (a null bool) when the mode is absent, two (the mode, then the list) when present |
| Codec.PutFlagStrings | net-reporter-api/src/api/network_bandwidth_per_endpoint/network_bandwidth_per_endpoint_filters.rs:81-93 | the mode and the string list, or a null bool alone when the mode is absent, are the next fields of the layout |
| Codec.PutFlagI64s | net-reporter-api/src/api/http_responses/http_responses_filters.rs:82-94 | the mode and the int list, or a null bool alone when the mode is absent, are the next fields of the layout |
| Codec.Started | net-reporter-api/src/api/network_bandwidth_per_endpoint/network_bandwidth_per_endpoint_filters.rs:79 | after the root step_in, the writer is filling an empty root struct |
| Codec.Finish | net-reporter-api/src/api/network_bandwidth_per_endpoint/network_bandwidth_per_endpoint_filters.rs:121-124 | once every field is written, step_out, flush and output give the serialisation of the root struct holding exactly the layout |
| Codec.ReadAll | net-reporter-api/src/api/network_bandwidth_per_endpoint/network_bandwidth_per_endpoint_filters.rs:142-147 | the for_each over the elements: every element read in order, None as soon as one does not read |
| Codec.NextBool | net-reporter-api/src/api/network_bandwidth_per_endpoint/network_bandwidth_per_endpoint_filters.rs:135-139 | next and read_bool: the reader stays at its level and the result is the next value read as a bool |
| Codec.NextI64 | net-reporter-api/src/api/network_bandwidth_per_endpoint/endpoint.rs:79-98 | next and read_i64: the reader stays at its level and the result is the next value read as an int |
| Codec.NextString | net-reporter-api/src/api/http_clients/http_client.rs:81-83 | next and read_string: the reader stays at its level and the result is the next value read as a string |
| Codec.NextBlob | net-agent-api/src/api/data_packet.rs:61-63 | next and read_blob: the reader stays at its level and the result is the next value read as a blob |
| Codec.NextOptI64 | net-reporter-api/src/api/network_bandwidth_per_endpoint/network_bandwidth_per_endpoint_filters.rs:175-179 | next, then a value is read as an int, and a null or nothing gives no bound |
| Codec.NextOptString | net-reporter-api/src/api/http_clients/http_client.rs:85-93 | next, then a value is read as a string, and a null or nothing gives no string |
| Codec.NextOptStringStrict | net-reporter-api/src/api/request_result/request_result.rs:98-109 | next, then a value is read as a string, a null gives no string, and nothing fails like the todo! branch |
| Codec.EnterElements | net-reporter-api/src/api/network_bandwidth_per_endpoint/network_bandwidth_per_endpoint_filters.rs:140-142 | next, step_in and read_all_elements: the next value's children, with the reader one level deeper |
| Codec.NextElements | net-reporter-api/src/api/network_bandwidth_per_endpoint/network_bandwidth_per_endpoint_filters.rs:140-149 | next, step_in, read_all_elements and step_out: the next value's children, with the reader back at its level |
| Codec.NextStrings | net-timescale-api/src/api/filters.rs:82-91 | a list of strings read whole: the reader stays at its level and the strings come in list order |
| Codec.NextI64s | net-reporter-api/src/api/http_responses/http_responses_filters.rs:138-174 | a list of ints read whole: the reader stays at its level and the ints come in list order |
| Codec.NextFlagStrings | net-reporter-api/src/api/network_bandwidth_per_endpoint/network_bandwidth_per_endpoint_filters.rs:137-154 | a value gives the mode and the string list after it; a null or nothing gives no mode and an empty list |
| Codec.NextFlagI64s | net-reporter-api/src/api/http_responses/http_responses_filters.rs:138-174 | a value gives the mode and the int list after it; a null or nothing gives no mode and an empty list |
| Codec.NextListOf | net-timescale-api/src/api/dashboard/dashboard.rs:107-121 | a list read whole and each element read with the given reading, in order; the reader stays at its level |
| Codec.ListOfElems | net-reporter-api/src/api/network_bandwidth_per_endpoint/network_bandwidth_per_endpoint_filters.rs:142-147 | a list made one element per value reads back as those values, in order, when each element reads back |
| Codec.NullableOptI64 | net-reporter-api/src/api/network_bandwidth_per_endpoint/network_bandwidth_per_endpoint_filters.rs:109-119 | a present bound written as an int, or an absent one written as a null int, reads back unchanged |
| Codec.NullableOptString | net-reporter-api/src/api/http_clients/http_client.rs:59-63 | a present string, or an absent one written as a null string, reads back unchanged |
| Codec.AsStringOpt | net-timescale-api/src/api/dashboard/dashboard.rs:115-116 | as_string of a string written as present-or-null gives back the same optional string |
| Codec.FlaggedFlagFields | net-reporter-api/src/api/network_bandwidth_per_endpoint/network_bandwidth_per_endpoint_filters.rs:137-154 | the flag fields read back as the mode with the list when the mode is present, and as no mode with an empty list when it is absent |
| Codec.FlaggedPresent | net-reporter-api/src/api/network_bandwidth_per_endpoint/network_bandwidth_per_endpoint_filters.rs:138-151 | a bool followed by a list reads back as that mode and the list's reading |
| AgentDataPacket.Encode | net-agent-api/src/api/data_packet.rs:35-51 | the bytes are the serialisation of one root struct holding, in order, "data" (blob); each write is proved to fit that layout and to obey the rules of the writer |
| AgentDataPacket.Read | net-agent-api/src/api/data_packet.rs:55-68 | from a fresh reader, yields the positional reading of the stream's first value (None wherever the source's unwrap or todo! would panic) and leaves the reader inside the root struct, which this decode never steps out of |
| AgentDataPacket.Decode | net-agent-api/src/api/data_packet.rs:55-68 | equals parsing the bytes and reading the root positionally; a malformed stream or value is None |
| AgentDataPacket.RoundTrip | net-agent-api/src/api/data_packet.rs:111-115 | decoding the encoding gives the value back |
| Envelope.Encode | net-timescale-api/src/api/dashboard/dashboard_request.rs:56 | the bytes are the serialisation of one root struct holding, in order, "group_id" (string or null string), "agent_id" (string or null string), "type" (string), "data" (blob); each write is proved to fit that layout and to obey the rules of the writer |
| Envelope.Read | net-timescale-api/src/api/dashboard/dashboard_request.rs:81 | from a fresh reader, yields the positional reading of the stream's first value (None wherever the source's unwrap or todo! would panic) and steps out of every container it entered |
| Envelope.Decode | net-timescale-api/src/api/dashboard/dashboard_request.rs:81 | equals parsing the bytes and reading the root positionally; a malformed stream or value is None |
| Envelope.RoundTrip | net-timescale-api/src/api/dashboard/dashboard_request.rs:161-183 | decoding the encoding gives the value back |
| Envelope.Layout | net-timescale-api/src/api/dashboard/dashboard_request.rs:56 | the root struct's values are exactly, in order, the elements of "group_id" (string or null string), "agent_id" (string or null string), "type" (string), "data" (blob) |
| Envelope.ReadChildren | net-timescale-api/src/api/dashboard/dashboard_request.rs:81 | the positional read of the encoded root's children gives back the value itself |
| Envelope.NullableOptBlob | net-reporter-api/src/api/request_result/request_result.rs:88-130 | a present child written as its blob, or an absent one written as a null blob, reads back as itself |
| Envelope.NextMaybeStrict | net-reporter-api/src/api/request_result/request_result.rs:88-130 | next, then a null gives no child and a value gives the decoded blob; a missing position fails like the todo! branch |
| Envelope.BlobRoundTrip | net-timescale-api/src/api/dashboard/dashboard_request.rs:68-87 | the parent reading this child's blob back with as_blob().unwrap() and decode gets the value |
| Envelope.EncodeAll | net-timescale-api/src/api/dashboard/dashboard_request.rs:44-64 | one encoding per element, in order, each the element's own encoding |
| Envelope.DecodeAll | net-timescale-api/src/api/dashboard/dashboard_request.rs:68-87 | every element read as a blob and decoded, in order; None as soon as one is not a blob or does not decode |
| Envelope.NextAll | net-timescale-api/src/api/dashboard/dashboard_request.rs:68-87 | next, step_in, read_all_elements, the decode loop, step_out: the reader stays at its level and the result is the next list decoded element by element, in order |
| Envelope.ByNameRoundTrip | net-timescale-api/src/api/dashboard/dashboard.rs:101-125 | a struct written by encode reads back as the value when its fields are looked up by name |
| Envelope.NestedListOf | net-timescale-api/src/api/dashboard/dashboard.rs:101-125 | a list of these written inline reads back element by element, by name, as the same values in the same order |
| Envelope.WriteNested | net-timescale-api/src/api/dashboard/dashboard.rs:46-97 | step_in(Struct), the fields, step_out inside an open list: exactly the struct encode describes is appended to the list |
| Envelope.WriteNestedAll | net-timescale-api/src/api/dashboard/dashboard.rs:46-97 | the loop over the elements: the list gains each element's struct, in order, and nothing else |
| Envelope.PutNestedAll | net-timescale-api/src/api/dashboard/dashboard.rs:46-97 | set_field_name, step_in(List), the loop, step_out: the list of the elements' structs becomes the next field of the parent |
| Envelope.ReversedReadsByName | net-timescale-api/src/api/dashboard/dashboard.rs:101-125 | the same fields written in the opposite order still read back as the value by name |
| Envelope.ReversedFailsByPosition | net-timescale-api/src/api/dashboard/dashboard.rs:101-125 | those reversed fields do not read back by position: reading by name is what makes the field order irrelevant |
| ReporterBandwidthBucket.Encode | net-reporter-api/src/api/network_bandwidth/bandwidth_bucket.rs:42-60 | the bytes are the serialisation of one root struct holding, in order, "bucket_timestamp" (int), "total_bytes" (int); each write is proved to fit that layout and to obey the rules of the writer |
| ReporterBandwidthBucket.Read | net-reporter-api/src/api/network_bandwidth/bandwidth_bucket.rs:64-80 | from a fresh reader, yields the positional reading of the stream's first value (None wherever the source's unwrap or todo! would panic) and leaves the reader inside the root struct, which this decode never steps out of |
| ReporterBandwidthBucket.Decode | net-reporter-api/src/api/network_bandwidth/bandwidth_bucket.rs:64-80 | equals parsing the bytes and reading the root positionally; a malformed stream or value is None |
| ReporterBandwidthBucket.RoundTrip | net-reporter-api/src/api/network_bandwidth/bandwidth_bucket.rs:132-141 | decoding the encoding gives the value back |
| ReporterBandwidthBucket.BlobRoundTrip | net-timescale-api/src/api/network_bandwidth/network_bandwidth.rs:63-82 | the parent reading this child's blob back with as_blob().unwrap() and decode gets the value |
| ReporterBandwidthBucket.EncodeAll | net-timescale-api/src/api/network_bandwidth/network_bandwidth.rs:39-59 | one encoding per element, in order, each the element's own encoding |
| ReporterBandwidthBucket.DecodeAll | net-timescale-api/src/api/network_bandwidth/network_bandwidth.rs:63-82 | every element read as a blob and decoded, in order; None as soon as one is not a blob or does not decode |
| ReporterBandwidthBucket.NextAll | net-timescale-api/src/api/network_bandwidth/network_bandwidth.rs:63-82 | next, step_in, read_all_elements, the decode loop, step_out: the reader stays at its level and the result is the next list decoded element by element, in order |
| ReporterBandwidthFilters.Encode | net-reporter-api/src/api/network_bandwidth/network_bandwidth_filters.rs:60-100 | the bytes are the serialisation of one root struct holding, in order, "include_protocols_mode" (bool, or null bool when the mode is absent, then the string list "protocols" only when it is present), "include_endpoints_mode" (bool, or null bool when the mode is absent, then the string list "endpoints" only when it is present); each write is proved to fit that layout and to obey the rules of the writer |
| ReporterBandwidthFilters.Read | net-reporter-api/src/api/network_bandwidth/network_bandwidth_filters.rs:104-156 | from a fresh reader, yields the positional reading of the stream's first value (None wherever the source's unwrap or todo! would panic) and leaves the reader inside the root struct, which this decode never steps out of |
| ReporterBandwidthFilters.Decode | net-reporter-api/src/api/network_bandwidth/network_bandwidth_filters.rs:104-156 | equals parsing the bytes and reading the root positionally; a malformed stream or value is None |
| ReporterBandwidthFilters.RoundTrip | net-reporter-api/src/api/network_bandwidth/network_bandwidth_filters.rs:326-338 | decoding the encoding gives the value back for every value in which a list whose mode is None is empty |
| ReporterBandwidthFilters.Layout | net-reporter-api/src/api/network_bandwidth/network_bandwidth_filters.rs:60-100 | the root struct's values are exactly, in order, the elements of "include_protocols_mode" (bool, or null bool when the mode is absent, then the string list "protocols" only when it is present), "include_endpoints_mode" (bool, or null bool when the mode is absent, then the string list "endpoints" only when it is present) |
| ReporterBandwidthFilters.ReadChildren | net-reporter-api/src/api/network_bandwidth/network_bandwidth_filters.rs:104-156 | the positional read of the encoded root's children gives back the normalised value |
| ReporterBandwidthFilters.Normal | net-reporter-api/src/api/network_bandwidth/network_bandwidth_filters.rs:104-156 | the normalised value (every list whose mode is None emptied) is canonical, and equals the value exactly when the value is canonical |
| ReporterBandwidthFilters.Reencode | net-reporter-api/src/api/network_bandwidth/network_bandwidth_filters.rs:104-156 | decoding the encoding of any value gives its normalised value: a list held with mode None comes back empty, every other field unchanged |
| ReporterBandwidthFilters.ListWithoutModeIsLost | net-reporter-api/src/api/network_bandwidth/network_bandwidth_filters.rs:104-156 | for every value that is not canonical (a non-empty list with mode None) the round trip fails |
| ReporterBandwidthFilters.From | net-reporter-api/src/api/network_bandwidth/network_bandwidth_filters.rs:169-178 | the copy equals the original, field for field |
| ReporterBandwidthFilters.BlobRoundTrip | net-reporter-api/src/api/network_bandwidth/network_bandwidth_request.rs:81-109 | the parent reading this child's blob back with as_blob().unwrap() and decode gets the value |
| ReporterBandwidthFilters.BlobReencode | net-reporter-api/src/api/network_bandwidth/network_bandwidth_request.rs:81-109 | the parent reading this child's blob back gets the child's normalised value |
| ReporterBandwidthFilters.OptNormal | net-reporter-api/src/api/network_bandwidth/network_bandwidth_request.rs:81-109 | an absent child stays absent and a present one is normalised |
| ReporterBandwidthFilters.NullableOptBlob | net-reporter-api/src/api/network_bandwidth/network_bandwidth_request.rs:81-109 | a present child written as its blob, or an absent one written as a null blob, reads back as its normalised value |
| ReporterBandwidthFilters.NextMaybe | net-reporter-api/src/api/network_bandwidth/network_bandwidth_request.rs:81-109 | next, then a null gives no child and a value gives the decoded blob; a missing position also gives no child |
| ReporterBandwidthPerEndpointFilters.Encode | net-reporter-api/src/api/network_bandwidth_per_endpoint/network_bandwidth_per_endpoint_filters.rs:73-125 | the bytes are the serialisation of one root struct holding, in order, "include_protocols_mode" (bool, or null bool when the mode is absent, then the string list "protocols" only when it is present), "include_endpoints_mode" (bool, or null bool when the mode is absent, then the string list "endpoints" only when it is present), "bytes_lower_bound" (int or null int), "bytes_upper_bound" (int or null int); each write is proved to fit that layout and to obey the rules of the writer |
| ReporterBandwidthPerEndpointFilters.Read | net-reporter-api/src/api/network_bandwidth_per_endpoint/network_bandwidth_per_endpoint_filters.rs:129-195 | from a fresh reader, yields the positional reading of the stream's first value (None wherever the source's unwrap or todo! would panic) and leaves the reader inside the root struct, which this decode never steps out of |
| ReporterBandwidthPerEndpointFilters.Decode | net-reporter-api/src/api/network_bandwidth_per_endpoint/network_bandwidth_per_endpoint_filters.rs:129-195 | equals parsing the bytes and reading the root positionally; a malformed stream or value is None |
| ReporterBandwidthPerEndpointFilters.RoundTrip | net-reporter-api/src/api/network_bandwidth_per_endpoint/network_bandwidth_per_endpoint_filters.rs:383-399 | decoding the encoding gives the value back for every value in which a list whose mode is None is empty |
| ReporterBandwidthPerEndpointFilters.Layout | net-reporter-api/src/api/network_bandwidth_per_endpoint/network_bandwidth_per_endpoint_filters.rs:73-125 | the root struct's values are exactly, in order, the elements of "include_protocols_mode" (bool, or null bool when the mode is absent, then the string list "protocols" only when it is present), "include_endpoints_mode" (bool, or null bool when the mode is absent, then the string list "endpoints" only when it is present), "bytes_lower_bound" (int or null int), "bytes_upper_bound" (int or null int) |
| ReporterBandwidthPerEndpointFilters.ReadChildren | net-reporter-api/src/api/network_bandwidth_per_endpoint/network_bandwidth_per_endpoint_filters.rs:129-195 | the positional read of the encoded root's children gives back the normalised value |
| ReporterBandwidthPerEndpointFilters.Normal | net-reporter-api/src/api/network_bandwidth_per_endpoint/network_bandwidth_per_endpoint_filters.rs:129-195 | the normalised value (every list whose mode is None emptied) is canonical, and equals the value exactly when the value is canonical |
| ReporterBandwidthPerEndpointFilters.Reencode | net-reporter-api/src/api/network_bandwidth_per_endpoint/network_bandwidth_per_endpoint_filters.rs:129-195 | decoding the encoding of any value gives its normalised value: a list held with mode None comes back empty, every other field unchanged |
| ReporterBandwidthPerEndpointFilters.ListWithoutModeIsLost | net-reporter-api/src/api/network_bandwidth_per_endpoint/network_bandwidth_per_endpoint_filters.rs:129-195 | for every value that is not canonical (a non-empty list with mode None) the round trip fails |
| ReporterBandwidthPerEndpointFilters.BlobRoundTrip | net-reporter-api/src/api/network_graph/network_graph_request.rs:74-94 | the parent reading this child's blob back with as_blob().unwrap() and decode gets the value |
| ReporterBandwidthPerEndpointFilters.BlobReencode | net-reporter-api/src/api/network_graph/network_graph_request.rs:74-94 | the parent reading this child's blob back gets the child's normalised value |
| ReporterBandwidthPerEndpointFilters.NextOne | net-reporter-api/src/api/network_graph/network_graph_request.rs:74-94 | next, as_blob().unwrap() and decode: the reader stays at its level and the result is the blob at the next position decoded, None when it is missing or not a blob |
| ReporterBandwidthPerEndpointRequest.Encode | net-reporter-api/src/api/network_bandwidth_per_endpoint/network_bandwidth_per_endpoint_request.rs:46-65 | the bytes are the serialisation of one root struct holding, in order, "start_date_time" (int), "end_date_time" (int); each write is proved to fit that layout and to obey the rules of the writer |
| ReporterBandwidthPerEndpointRequest.Read | net-reporter-api/src/api/network_bandwidth_per_endpoint/network_bandwidth_per_endpoint_request.rs:69-84 | from a fresh reader, yields the positional reading of the stream's first value (None wherever the source's unwrap or todo! would panic) and leaves the reader inside the root struct, which this decode never steps out of |
| ReporterBandwidthPerEndpointRequest.Decode | net-reporter-api/src/api/network_bandwidth_per_endpoint/network_bandwidth_per_endpoint_request.rs:69-84 | equals parsing the bytes and reading the root positionally; a malformed stream or value is None |
| ReporterBandwidthPerEndpointRequest.RoundTrip | net-reporter-api/src/api/network_bandwidth_per_endpoint/network_bandwidth_per_endpoint_request.rs:136-145 | decoding the encoding gives the value back |
| ReporterBandwidthPerProtocol.Encode | net-reporter-api/src/api/network_bandwidth_per_protocol/network_bandwidth_per_protocol.rs:38-58 | the bytes are the serialisation of one root struct holding, in order, "protocols" (list of blobs, one per element's encoding); each write is proved to fit that layout and to obey the rules of the writer |
| ReporterBandwidthPerProtocol.Read | net-reporter-api/src/api/network_bandwidth_per_protocol/network_bandwidth_per_protocol.rs:62-80 | from a fresh reader, yields the positional reading of the stream's first value (None wherever the source's unwrap or todo! would panic) and leaves the reader inside the list, as this decode steps out of neither the list nor the root |
| ReporterBandwidthPerProtocol.Decode | net-reporter-api/src/api/network_bandwidth_per_protocol/network_bandwidth_per_protocol.rs:62-80 | equals parsing the bytes and reading the root positionally; a malformed stream or value is None |
| ReporterBandwidthPerProtocol.RoundTrip | net-reporter-api/src/api/network_bandwidth_per_protocol/network_bandwidth_per_protocol.rs:144-158 | decoding the encoding gives the value back |
| ReporterBandwidthPerProtocolFilters.Encode | net-reporter-api/src/api/network_bandwidth_per_protocol/network_bandwidth_per_protocol_filters.rs:59-97 | the bytes are the serialisation of one root struct holding, in order, "include_endpoints_mode" (bool, or null bool when the mode is absent, then the string list "endpoints" only when it is present), "bytes_lower_bound" (int or null int), "bytes_upper_bound" (int or null int); each write is proved to fit that layout and to obey the rules of the writer |
| ReporterBandwidthPerProtocolFilters.Read | net-reporter-api/src/api/network_bandwidth_per_protocol/network_bandwidth_per_protocol_filters.rs:101-144 | from a fresh reader, yields the positional reading of the stream's first value (None wherever the source's unwrap or todo! would panic) and leaves the reader inside the root struct, which this decode never steps out of |
| ReporterBandwidthPerProtocolFilters.Decode | net-reporter-api/src/api/network_bandwidth_per_protocol/network_bandwidth_per_protocol_filters.rs:101-144 | equals parsing the bytes and reading the root positionally; a malformed stream or value is None |
| ReporterBandwidthPerProtocolFilters.RoundTrip | net-reporter-api/src/api/network_bandwidth_per_protocol/network_bandwidth_per_protocol_filters.rs:288-300 | decoding the encoding gives the value back for every value in which a list whose mode is None is empty |
| ReporterBandwidthPerProtocolFilters.Layout | net-reporter-api/src/api/network_bandwidth_per_protocol/network_bandwidth_per_protocol_filters.rs:59-97 | the root struct's values are exactly, in order, the elements of "include_endpoints_mode" (bool, or null bool when the mode is absent, then the string list "endpoints" only when it is present), "bytes_lower_bound" (int or null int), "bytes_upper_bound" (int or null int) |
| ReporterBandwidthPerProtocolFilters.ReadChildren | net-reporter-api/src/api/network_bandwidth_per_protocol/network_bandwidth_per_protocol_filters.rs:101-144 | the positional read of the encoded root's children gives back the normalised value |
| ReporterBandwidthPerProtocolFilters.Normal | net-reporter-api/src/api/network_bandwidth_per_protocol/network_bandwidth_per_protocol_filters.rs:101-144 | the normalised value (every list whose mode is None emptied) is canonical, and equals the value exactly when the value is canonical |
| ReporterBandwidthPerProtocolFilters.Reencode | net-reporter-api/src/api/network_bandwidth_per_protocol/network_bandwidth_per_protocol_filters.rs:101-144 | decoding the encoding of any value gives its normalised value: a list held with mode None comes back empty, every other field unchanged |
| ReporterBandwidthPerProtocolFilters.ListWithoutModeIsLost | net-reporter-api/src/api/network_bandwidth_per_protocol/network_bandwidth_per_protocol_filters.rs:101-144 | for every value that is not canonical (a non-empty list with mode None) the round trip fails |
| ReporterBandwidthPerProtocolFilters.BlobRoundTrip | net-reporter-api/src/api/http_responses_distribution/http_responses_distribution_request.rs:74-94 | the parent reading this child's blob back with as_blob().unwrap() and decode gets the value |
| ReporterBandwidthPerProtocolFilters.BlobReencode | net-reporter-api/src/api/http_responses_distribution/http_responses_distribution_request.rs:74-94 | the parent reading this child's blob back gets the child's normalised value |
| ReporterBandwidthPerProtocolFilters.NextOne | net-reporter-api/src/api/http_responses_distribution/http_responses_distribution_request.rs:74-94 | next, as_blob().unwrap() and decode: the reader stays at its level and the result is the blob at the next position decoded, None when it is missing or not a blob |
| ReporterBandwidthPerProtocolRequest.Encode | net-reporter-api/src/api/network_bandwidth_per_protocol/network_bandwidth_per_protocol_request.rs:41-60 | the bytes are the serialisation of one root struct holding, in order, "start_date_time" (int), "end_date_time" (int); each write is proved to fit that layout and to obey the rules of the writer |
| ReporterBandwidthPerProtocolRequest.Read | net-reporter-api/src/api/network_bandwidth_per_protocol/network_bandwidth_per_protocol_request.rs:64-79 | from a fresh reader, yields the positional reading of the stream's first value (None wherever the source's unwrap or todo! would panic) and leaves the reader inside the root struct, which this decode never steps out of |
| ReporterBandwidthPerProtocolRequest.Decode | net-reporter-api/src/api/network_bandwidth_per_protocol/network_bandwidth_per_protocol_request.rs:64-79 | equals parsing the bytes and reading the root positionally; a malformed stream or value is None |
| ReporterBandwidthPerProtocolRequest.RoundTrip | net-reporter-api/src/api/network_bandwidth_per_protocol/network_bandwidth_per_protocol_request.rs:131-140 | decoding the encoding gives the value back |
| ReporterBandwidthRequest.Encode | net-reporter-api/src/api/network_bandwidth/network_bandwidth_request.rs:50-77 | the bytes are the serialisation of one root struct holding, in order, "start_date_time" (int), "end_date_time" (int), "filters" (blob of the child's encoding or null blob); each write is proved to fit that layout and to obey the rules of the writer |
| ReporterBandwidthRequest.Read | net-reporter-api/src/api/network_bandwidth/network_bandwidth_request.rs:81-109 | from a fresh reader, yields the positional reading of the stream's first value (None wherever the source's unwrap or todo! would panic) and leaves the reader inside the root struct, which this decode never steps out of |
| ReporterBandwidthRequest.Decode | net-reporter-api/src/api/network_bandwidth/network_bandwidth_request.rs:81-109 | equals parsing the bytes and reading the root positionally; a malformed stream or value is None |
| ReporterBandwidthRequest.RoundTrip | net-reporter-api/src/api/network_bandwidth/network_bandwidth_request.rs:207-216 | decoding the encoding gives the value back for every value in which a list whose mode is None is empty |
| ReporterBandwidthRequest.Layout | net-reporter-api/src/api/network_bandwidth/network_bandwidth_request.rs:50-77 | the root struct's values are exactly, in order, the elements of "start_date_time" (int), "end_date_time" (int), "filters" (blob of the child's encoding or null blob) |
| ReporterBandwidthRequest.ReadChildren | net-reporter-api/src/api/network_bandwidth/network_bandwidth_request.rs:81-109 | the positional read of the encoded root's children gives back the normalised value |
| ReporterBandwidthRequest.Normal | net-reporter-api/src/api/network_bandwidth/network_bandwidth_request.rs:81-109 | the normalised value (every list whose mode is None emptied) is canonical, and equals the value exactly when the value is canonical |
| ReporterBandwidthRequest.Reencode | net-reporter-api/src/api/network_bandwidth/network_bandwidth_request.rs:81-109 | decoding the encoding of any value gives its normalised value: a list held with mode None comes back empty, every other field unchanged |
| ReporterBandwidthRequest.FiltersListWithoutModeIsLost | net-reporter-api/src/api/network_bandwidth/network_bandwidth_request.rs:81-109 | for every value that is not canonical (a non-empty list with mode None inside its filters) the round trip fails |
| ReporterEndpoint.Encode | net-reporter-api/src/api/network_bandwidth_per_endpoint/endpoint.rs:54-75 | the bytes are the serialisation of one root struct holding, in order, "id" (string), "total_bytes_received" (int), "total_bytes_sent" (int); each write is proved to fit that layout and to obey the rules of the writer |
| ReporterEndpoint.Read | net-reporter-api/src/api/network_bandwidth_per_endpoint/endpoint.rs:79-98 | from a fresh reader, yields the positional reading of the stream's first value (None wherever the source's unwrap or todo! would panic) and leaves the reader inside the root struct, which this decode never steps out of |
| ReporterEndpoint.Decode | net-reporter-api/src/api/network_bandwidth_per_endpoint/endpoint.rs:79-98 | equals parsing the bytes and reading the root positionally; a malformed stream or value is None |
| ReporterEndpoint.RoundTrip | net-reporter-api/src/api/network_bandwidth_per_endpoint/endpoint.rs:153-165 | decoding the encoding gives the value back |
| ReporterEndpoint.BlobRoundTrip | net-timescale-api/src/api/bandwidth_per_endpoint/bandwidth_per_endpoint.rs:66-82 | the parent reading this child's blob back with as_blob().unwrap() and decode gets the value |
| ReporterEndpoint.EncodeAll | net-timescale-api/src/api/bandwidth_per_endpoint/bandwidth_per_endpoint.rs:42-62 | one encoding per element, in order, each the element's own encoding |
| ReporterEndpoint.DecodeAll | net-timescale-api/src/api/bandwidth_per_endpoint/bandwidth_per_endpoint.rs:66-82 | every element read as a blob and decoded, in order; None as soon as one is not a blob or does not decode |
| ReporterEndpoint.NextAll | net-timescale-api/src/api/bandwidth_per_endpoint/bandwidth_per_endpoint.rs:66-82 | next, step_in, read_all_elements, the decode loop, step_out: the reader stays at its level and the result is the next list decoded element by element, in order |
| ReporterFilterEntry.Encode | net-reporter-api/src/api/network_overview_dashboard_filters/filter_entry.rs:48-73 | the bytes are the serialisation of one root struct holding, in order, "endpoint" (string), "protocols" (list of strings), "total_bytes" (int); each write is proved to fit that layout and to obey the rules of the writer |
| ReporterFilterEntry.Read | net-reporter-api/src/api/network_overview_dashboard_filters/filter_entry.rs:77-106 | from a fresh reader, yields the positional reading of the stream's first value (None wherever the source's unwrap or todo! would panic) and steps out of every container it entered |
| ReporterFilterEntry.Decode | net-reporter-api/src/api/network_overview_dashboard_filters/filter_entry.rs:77-106 | equals parsing the bytes and reading the root positionally; a malformed stream or value is None |
| ReporterFilterEntry.RoundTrip | net-reporter-api/src/api/network_overview_dashboard_filters/filter_entry.rs:168-173 | decoding the encoding gives the value back |
| ReporterFilterEntry.BlobRoundTrip | net-reporter-api/src/api/network_overview_dashboard_filters/network_overview_dashbord_filters.rs:62-82 | the parent reading this child's blob back with as_blob().unwrap() and decode gets the value |
| ReporterFilterEntry.EncodeAll | net-reporter-api/src/api/network_overview_dashboard_filters/network_overview_dashbord_filters.rs:39-58 | one encoding per element, in order, each the element's own encoding |
| ReporterFilterEntry.DecodeAll | net-reporter-api/src/api/network_overview_dashboard_filters/network_overview_dashbord_filters.rs:62-82 | every element read as a blob and decoded, in order; None as soon as one is not a blob or does not decode |
| ReporterFilterEntry.NextAll | net-reporter-api/src/api/network_overview_dashboard_filters/network_overview_dashbord_filters.rs:62-82 | next, step_in, read_all_elements, the decode loop, step_out: the reader stays at its level and the result is the next list decoded element by element, in order |
| ReporterGraphEdge.Encode | net-reporter-api/src/api/network_graph/graph_edge.rs:48-69 | the bytes are the serialisation of one root struct holding, in order, "src_id" (string), "dst_id" (string), "value" (int); each write is proved to fit that layout and to obey the rules of the writer |
| ReporterGraphEdge.Read | net-reporter-api/src/api/network_graph/graph_edge.rs:73-97 | from a fresh reader, yields the positional reading of the stream's first value (None wherever the source's unwrap or todo! would panic) and steps out of every container it entered |
| ReporterGraphEdge.Decode | net-reporter-api/src/api/network_graph/graph_edge.rs:73-97 | equals parsing the bytes and reading the root positionally; a malformed stream or value is None |
| ReporterGraphEdge.RoundTrip | net-reporter-api/src/api/network_graph/graph_edge.rs:151-157 | decoding the encoding gives the value back |
| ReporterGraphEdge.BlobRoundTrip | net-reporter-api/src/api/network_graph/network_graph.rs:76-106 | the parent reading this child's blob back with as_blob().unwrap() and decode gets the value |
| ReporterGraphEdge.EncodeAll | net-reporter-api/src/api/network_graph/network_graph.rs:46-72 | one encoding per element, in order, each the element's own encoding |
| ReporterGraphEdge.DecodeAll | net-reporter-api/src/api/network_graph/network_graph.rs:76-106 | every element read as a blob and decoded, in order; None as soon as one is not a blob or does not decode |
| ReporterGraphEdge.NextAll | net-reporter-api/src/api/network_graph/network_graph.rs:76-106 | next, step_in, read_all_elements, the decode loop, step_out: the reader stays at its level and the result is the next list decoded element by element, in order |
| ReporterGraphNode.Encode | net-reporter-api/src/api/network_graph/graph_node.rs:33-48 | the bytes are the serialisation of one root struct holding, in order, "node_id" (string); each write is proved to fit that layout and to obey the rules of the writer |
| ReporterGraphNode.Read | net-reporter-api/src/api/network_graph/graph_node.rs:52-63 | from a fresh reader, yields the positional reading of the stream's first value (None wherever the source's unwrap or todo! would panic) and leaves the reader inside the root struct, which this decode never steps out of |
| ReporterGraphNode.Decode | net-reporter-api/src/api/network_graph/graph_node.rs:52-63 | equals parsing the bytes and reading the root positionally; a malformed stream or value is None |
| ReporterGraphNode.RoundTrip | net-reporter-api/src/api/network_graph/graph_node.rs:107-112 | decoding the encoding gives the value back |
| ReporterGraphNode.BlobRoundTrip | net-reporter-api/src/api/network_graph/network_graph.rs:76-106 | the parent reading this child's blob back with as_blob().unwrap() and decode gets the value |
| ReporterGraphNode.EncodeAll | net-reporter-api/src/api/network_graph/network_graph.rs:46-72 | one encoding per element, in order, each the element's own encoding |
| ReporterGraphNode.DecodeAll | net-reporter-api/src/api/network_graph/network_graph.rs:76-106 | every element read as a blob and decoded, in order; None as soon as one is not a blob or does not decode |
| ReporterGraphNode.NextAll | net-reporter-api/src/api/network_graph/network_graph.rs:76-106 | next, step_in, read_all_elements, the decode loop, step_out: the reader stays at its level and the result is the next list decoded element by element, in order |
| ReporterHttpClient.Encode | net-reporter-api/src/api/http_clients/http_client.rs:48-72 | the bytes are the serialisation of one root struct holding, in order, "endpoint" (string), "user_agent" (string or null string), "request" (string); each write is proved to fit that layout and to obey the rules of the writer |
| ReporterHttpClient.Read | net-reporter-api/src/api/http_clients/http_client.rs:76-102 | from a fresh reader, yields the positional reading of the stream's first value (None wherever the source's unwrap or todo! would panic) and steps out of every container it entered |
| ReporterHttpClient.Decode | net-reporter-api/src/api/http_clients/http_client.rs:76-102 | equals parsing the bytes and reading the root positionally; a malformed stream or value is None |
| ReporterHttpClient.RoundTrip | net-reporter-api/src/api/http_clients/http_client.rs:154-158 | decoding the encoding gives the value back |
| ReporterHttpClient.Layout | net-reporter-api/src/api/http_clients/http_client.rs:48-72 | the root struct's values are exactly, in order, the elements of "endpoint" (string), "user_agent" (string or null string), "request" (string) |
| ReporterHttpClient.ReadChildren | net-reporter-api/src/api/http_clients/http_client.rs:76-102 | the positional read of the encoded root's children gives back the value itself |
| ReporterHttpClient.BlobRoundTrip | net-reporter-api/src/api/http_clients/http_clients.rs:63-79 | the parent reading this child's blob back with as_blob().unwrap() and decode gets the value |
| ReporterHttpClient.EncodeAll | net-reporter-api/src/api/http_clients/http_clients.rs:39-59 | one encoding per element, in order, each the element's own encoding |
| ReporterHttpClient.DecodeAll | net-reporter-api/src/api/http_clients/http_clients.rs:63-79 | every element read as a blob and decoded, in order; None as soon as one is not a blob or does not decode |
| ReporterHttpClient.NextAll | net-reporter-api/src/api/http_clients/http_clients.rs:63-79 | next, step_in, read_all_elements, the decode loop, step_out: the reader stays at its level and the result is the next list decoded element by element, in order |
| ReporterHttpClients.Encode | net-reporter-api/src/api/http_clients/http_clients.rs:39-59 | the bytes are the serialisation of one root struct holding, in order, "http_clients" (list of blobs, one per element's encoding); each write is proved to fit that layout and to obey the rules of the writer |
| ReporterHttpClients.Read | net-reporter-api/src/api/http_clients/http_clients.rs:63-79 | from a fresh reader, yields the positional reading of the stream's first value (None wherever the source's unwrap or todo! would panic) and leaves the reader inside the list, as this decode steps out of neither the list nor the root |
| ReporterHttpClients.Decode | net-reporter-api/src/api/http_clients/http_clients.rs:63-79 | equals parsing the bytes and reading the root positionally; a malformed stream or value is None |
| ReporterHttpClients.RoundTrip | net-reporter-api/src/api/http_clients/http_clients.rs:144-158 | decoding the encoding gives the value back |
| ReporterHttpOverviewFilters.Encode | net-reporter-api/src/api/http_overview_dashboard_filters/http_overview_dashboard_filters.rs:48-81 | the bytes are the serialisation of one root struct holding, in order, "endpoints" (list of strings), "http_request_methods" (list of strings), "http_response_codes" (list of strings); each write is proved to fit that layout and to obey the rules of the writer |
| ReporterHttpOverviewFilters.Read | net-reporter-api/src/api/http_overview_dashboard_filters/http_overview_dashboard_filters.rs:85-125 | from a fresh reader, yields the positional reading of the stream's first value (None wherever the source's unwrap or todo! would panic) and steps out of every container it entered |
| ReporterHttpOverviewFilters.Decode | net-reporter-api/src/api/http_overview_dashboard_filters/http_overview_dashboard_filters.rs:85-125 | equals parsing the bytes and reading the root positionally; a malformed stream or value is None |
| ReporterHttpOverviewFilters.RoundTrip | net-reporter-api/src/api/http_overview_dashboard_filters/http_overview_dashboard_filters.rs:206-215 | decoding the encoding gives the value back |
| ReporterHttpRequestMethod.Encode | net-reporter-api/src/api/http_request_methods_distribution/http_request_method.rs:41-59 | the bytes are the serialisation of one root struct holding, in order, "name" (string), "amount" (int); each write is proved to fit that layout and to obey the rules of the writer |
| ReporterHttpRequestMethod.Read | net-reporter-api/src/api/http_request_methods_distribution/http_request_method.rs:63-78 | from a fresh reader, yields the positional reading of the stream's first value (None wherever the source's unwrap or todo! would panic) and steps out of every container it entered |
| ReporterHttpRequestMethod.Decode | net-reporter-api/src/api/http_request_methods_distribution/http_request_method.rs:63-78 | equals parsing the bytes and reading the root positionally; a malformed stream or value is None |
| ReporterHttpRequestMethod.RoundTrip | net-reporter-api/src/api/http_request_methods_distribution/http_request_method.rs:126-131 | decoding the encoding gives the value back |
| ReporterHttpRequestMethod.BlobRoundTrip | net-reporter-api/src/api/http_request_methods_distribution/http_request_methods_distribution.rs:62-79 | the parent reading this child's blob back with as_blob().unwrap() and decode gets the value |
| ReporterHttpRequestMethod.EncodeAll | net-reporter-api/src/api/http_request_methods_distribution/http_request_methods_distribution.rs:39-58 | one encoding per element, in order, each the element's own encoding |
| ReporterHttpRequestMethod.DecodeAll | net-reporter-api/src/api/http_request_methods_distribution/http_request_methods_distribution.rs:62-79 | every element read as a blob and decoded, in order; None as soon as one is not a blob or does not decode |
| ReporterHttpRequestMethod.NextAll | net-reporter-api/src/api/http_request_methods_distribution/http_request_methods_distribution.rs:62-79 | next, step_in, read_all_elements, the decode loop, step_out: the reader stays at its level and the result is the next list decoded element by element, in order |
| ReporterHttpRequestMethodsDist.Encode | net-reporter-api/src/api/http_request_methods_dist/http_request_methods_dist.rs:39-58 | the bytes are the serialisation of one root struct holding, in order, "http_requests" (list of blobs, one per element's encoding); each write is proved to fit that layout and to obey the rules of the writer |
| ReporterHttpRequestMethodsDist.Read | net-reporter-api/src/api/http_request_methods_dist/http_request_methods_dist.rs:62-79 | from a fresh reader, yields the positional reading of the stream's first value (None wherever the source's unwrap or todo! would panic) and steps out of every container it entered |
| ReporterHttpRequestMethodsDist.Decode | net-reporter-api/src/api/http_request_methods_dist/http_request_methods_dist.rs:62-79 | equals parsing the bytes and reading the root positionally; a malformed stream or value is None |
| ReporterHttpRequestMethodsDist.RoundTrip | net-reporter-api/src/api/http_request_methods_dist/http_request_methods_dist.rs:139-149 | decoding the encoding gives the value back |
| ReporterHttpRequestMethodsDistribution.Encode | net-reporter-api/src/api/http_request_methods_distribution/http_request_methods_distribution.rs:39-58 | the bytes are the serialisation of one root struct holding, in order, "http_requests" (list of blobs, one per element's encoding); each write is proved to fit that layout and to obey the rules of the writer |
| ReporterHttpRequestMethodsDistribution.Read | net-reporter-api/src/api/http_request_methods_distribution/http_request_methods_distribution.rs:62-79 | from a fresh reader, yields the positional reading of the stream's first value (None wherever the source's unwrap or todo! would panic) and steps out of every container it entered |
| ReporterHttpRequestMethodsDistribution.Decode | net-reporter-api/src/api/http_request_methods_distribution/http_request_methods_distribution.rs:62-79 | equals parsing the bytes and reading the root positionally; a malformed stream or value is None |
| ReporterHttpRequestMethodsDistribution.RoundTrip | net-reporter-api/src/api/http_request_methods_distribution/http_request_methods_distribution.rs:139-149 | decoding the encoding gives the value back |
| ReporterHttpRequestMethodsDistributionRequest.Encode | net-reporter-api/src/api/http_request_methods_distribution/http_request_methods_distribution_request.rs:49-70 | the bytes are the serialisation of one root struct holding, in order, "start_date_time" (int), "end_date_time" (int), "filters" (blob of the child's encoding); each write is proved to fit that layout and to obey the rules of the writer |
| ReporterHttpRequestMethodsDistributionRequest.Read | net-reporter-api/src/api/http_request_methods_distribution/http_request_methods_distribution_request.rs:74-94 | from a fresh reader, yields the positional reading of the stream's first value (None wherever the source's unwrap or todo! would panic) and leaves the reader inside the root struct, which this decode never steps out of |
| ReporterHttpRequestMethodsDistributionRequest.Decode | net-reporter-api/src/api/http_request_methods_distribution/http_request_methods_distribution_request.rs:74-94 | equals parsing the bytes and reading the root positionally; a malformed stream or value is None |
| ReporterHttpRequestMethodsDistributionRequest.RoundTrip | net-reporter-api/src/api/http_request_methods_distribution/http_request_methods_distribution_request.rs:163-172 | decoding the encoding gives the value back for every value in which a list whose mode is None is empty |
| ReporterHttpRequestMethodsDistributionRequest.Layout | net-reporter-api/src/api/http_request_methods_distribution/http_request_methods_distribution_request.rs:49-70 | the root struct's values are exactly, in order, the elements of "start_date_time" (int), "end_date_time" (int), "filters" (blob of the child's encoding) |
| ReporterHttpRequestMethodsDistributionRequest.ReadChildren | net-reporter-api/src/api/http_request_methods_distribution/http_request_methods_distribution_request.rs:74-94 | the positional read of the encoded root's children gives back the normalised value |
| ReporterHttpRequestMethodsDistributionRequest.Normal | net-reporter-api/src/api/http_request_methods_distribution/http_request_methods_distribution_request.rs:74-94 | the normalised value (every list whose mode is None emptied) is canonical, and equals the value exactly when the value is canonical |
| ReporterHttpRequestMethodsDistributionRequest.Reencode | net-reporter-api/src/api/http_request_methods_distribution/http_request_methods_distribution_request.rs:74-94 | decoding the encoding of any value gives its normalised value: a list held with mode None comes back empty, every other field unchanged |
| ReporterHttpRequestMethodsDistributionRequest.FiltersListWithoutModeIsLost | net-reporter-api/src/api/http_request_methods_distribution/http_request_methods_distribution_request.rs:74-94 | for every value that is not canonical (a non-empty list with mode None inside its filters) the round trip fails, with the per-protocol filters standing in for HttpRequestMethodsDisributionFiltersDTO |
| ReporterHttpRequestsBucket.Encode | net-reporter-api/src/api/total_http_requests/http_requests_bucket.rs:41-59 | the bytes are the serialisation of one root struct holding, in order, "bucket_timestamp" (int), "total_requests" (int); each write is proved to fit that layout and to obey the rules of the writer |
| ReporterHttpRequestsBucket.Read | net-reporter-api/src/api/total_http_requests/http_requests_bucket.rs:63-79 | from a fresh reader, yields the positional reading of the stream's first value (None wherever the source's unwrap or todo! would panic) and leaves the reader inside the root struct, which this decode never steps out of |
| ReporterHttpRequestsBucket.Decode | net-reporter-api/src/api/total_http_requests/http_requests_bucket.rs:63-79 | equals parsing the bytes and reading the root positionally; a malformed stream or value is None |
| ReporterHttpRequestsBucket.RoundTrip | net-reporter-api/src/api/total_http_requests/http_requests_bucket.rs:130-139 | decoding the encoding gives the value back |
| ReporterHttpRequestsBucket.BlobRoundTrip | net-reporter-api/src/api/total_http_requests/total_http_requests.rs:63-79 | the parent reading this child's blob back with as_blob().unwrap() and decode gets the value |
| ReporterHttpRequestsBucket.EncodeAll | net-reporter-api/src/api/total_http_requests/total_http_requests.rs:39-59 | one encoding per element, in order, each the element's own encoding |
| ReporterHttpRequestsBucket.DecodeAll | net-reporter-api/src/api/total_http_requests/total_http_requests.rs:63-79 | every element read as a blob and decoded, in order; None as soon as one is not a blob or does not decode |
| ReporterHttpRequestsBucket.NextAll | net-reporter-api/src/api/total_http_requests/total_http_requests.rs:63-79 | next, step_in, read_all_elements, the decode loop, step_out: the reader stays at its level and the result is the next list decoded element by element, in order |
| ReporterHttpResponse.Encode | net-reporter-api/src/api/http_responses/http_response.rs:53-77 | the bytes are the serialisation of one root struct holding, in order, "bucket_timestamp" (int), "client" (string), "server" (string), "response" (int); each write is proved to fit that layout and to obey the rules of the writer |
| ReporterHttpResponse.Read | net-reporter-api/src/api/http_responses/http_response.rs:81-103 | from a fresh reader, yields the positional reading of the stream's first value (None wherever the source's unwrap or todo! would panic) and steps out of every container it entered |
| ReporterHttpResponse.Decode | net-reporter-api/src/api/http_responses/http_response.rs:81-103 | equals parsing the bytes and reading the root positionally; a malformed stream or value is None |
| ReporterHttpResponse.RoundTrip | net-reporter-api/src/api/http_responses/http_response.rs:160-166 | decoding the encoding gives the value back |
| ReporterHttpResponse.BlobRoundTrip | net-reporter-api/src/api/http_responses/http_responses.rs:63-79 | the parent reading this child's blob back with as_blob().unwrap() and decode gets the value |
| ReporterHttpResponse.EncodeAll | net-reporter-api/src/api/http_responses/http_responses.rs:39-59 | one encoding per element, in order, each the element's own encoding |
| ReporterHttpResponse.DecodeAll | net-reporter-api/src/api/http_responses/http_responses.rs:63-79 | every element read as a blob and decoded, in order; None as soon as one is not a blob or does not decode |
| ReporterHttpResponse.NextAll | net-reporter-api/src/api/http_responses/http_responses.rs:63-79 | next, step_in, read_all_elements, the decode loop, step_out: the reader stays at its level and the result is the next list decoded element by element, in order |
| ReporterHttpResponses.Encode | net-reporter-api/src/api/http_responses/http_responses.rs:39-59 | the bytes are the serialisation of one root struct holding, in order, "http_responses" (list of blobs, one per element's encoding); each write is proved to fit that layout and to obey the rules of the writer |
| ReporterHttpResponses.Read | net-reporter-api/src/api/http_responses/http_responses.rs:63-79 | from a fresh reader, yields the positional reading of the stream's first value (None wherever the source's unwrap or todo! would panic) and leaves the reader inside the list, as this decode steps out of neither the list nor the root |
| ReporterHttpResponses.Decode | net-reporter-api/src/api/http_responses/http_responses.rs:63-79 | equals parsing the bytes and reading the root positionally; a malformed stream or value is None |
| ReporterHttpResponses.RoundTrip | net-reporter-api/src/api/http_responses/http_responses.rs:145-161 | decoding the encoding gives the value back |
| ReporterHttpResponsesBucket.Encode | net-reporter-api/src/api/http_responses_dist/http_responses_bucket.rs:48-69 | the bytes are the serialisation of one root struct holding, in order, "bucket_timestamp" (int), "response_code" (int), "amount" (int); each write is proved to fit that layout and to obey the rules of the writer |
| ReporterHttpResponsesBucket.Read | net-reporter-api/src/api/http_responses_dist/http_responses_bucket.rs:73-93 | from a fresh reader, yields the positional reading of the stream's first value (None wherever the source's unwrap or todo! would panic) and leaves the reader inside the root struct, which this decode never steps out of |
| ReporterHttpResponsesBucket.Decode | net-reporter-api/src/api/http_responses_dist/http_responses_bucket.rs:73-93 | equals parsing the bytes and reading the root positionally; a malformed stream or value is None |
| ReporterHttpResponsesBucket.RoundTrip | net-reporter-api/src/api/http_responses_dist/http_responses_bucket.rs:150-161 | decoding the encoding gives the value back |
| ReporterHttpResponsesBucket.BlobRoundTrip | net-reporter-api/src/api/http_responses_distribution/http_responses_distribution.rs:61-77 | the parent reading this child's blob back with as_blob().unwrap() and decode gets the value |
| ReporterHttpResponsesBucket.EncodeAll | net-reporter-api/src/api/http_responses_distribution/http_responses_distribution.rs:37-57 | one encoding per element, in order, each the element's own encoding |
| ReporterHttpResponsesBucket.DecodeAll | net-reporter-api/src/api/http_responses_distribution/http_responses_distribution.rs:61-77 | every element read as a blob and decoded, in order; None as soon as one is not a blob or does not decode |
| ReporterHttpResponsesBucket.NextAll | net-reporter-api/src/api/http_responses_distribution/http_responses_distribution.rs:61-77 | next, step_in, read_all_elements, the decode loop, step_out: the reader stays at its level and the result is the next list decoded element by element, in order |
| ReporterHttpResponsesDist.Encode | net-reporter-api/src/api/http_responses_dist/http_responses_dist.rs:37-57 | the bytes are the serialisation of one root struct holding, in order, "http_responses_buckets" (list of blobs, one per element's encoding); each write is proved to fit that layout and to obey the rules of the writer |
| ReporterHttpResponsesDist.Read | net-reporter-api/src/api/http_responses_dist/http_responses_dist.rs:61-77 | from a fresh reader, yields the positional reading of the stream's first value (None wherever the source's unwrap or todo! would panic) and leaves the reader inside the list, as this decode steps out of neither the list nor the root |
| ReporterHttpResponsesDist.Decode | net-reporter-api/src/api/http_responses_dist/http_responses_dist.rs:61-77 | equals parsing the bytes and reading the root positionally; a malformed stream or value is None |
| ReporterHttpResponsesDist.RoundTrip | net-reporter-api/src/api/http_responses_dist/http_responses_dist.rs:144-161 | decoding the encoding gives the value back |
| ReporterHttpResponsesDistRequest.Encode | net-reporter-api/src/api/http_responses_dist/http_responses_dist_request.rs:49-70 | the bytes are the serialisation of one root struct holding, in order, "start_date_time" (int), "end_date_time" (int), "filters" (blob of the child's encoding); each write is proved to fit that layout and to obey the rules of the writer |
| ReporterHttpResponsesDistRequest.Read | net-reporter-api/src/api/http_responses_dist/http_responses_dist_request.rs:74-94 | from a fresh reader, yields the positional reading of the stream's first value (None wherever the source's unwrap or todo! would panic) and leaves the reader inside the root struct, which this decode never steps out of |
| ReporterHttpResponsesDistRequest.Decode | net-reporter-api/src/api/http_responses_dist/http_responses_dist_request.rs:74-94 | equals parsing the bytes and reading the root positionally; a malformed stream or value is None |
| ReporterHttpResponsesDistRequest.RoundTrip | net-reporter-api/src/api/http_responses_dist/http_responses_dist_request.rs:166-175 | decoding the encoding gives the value back for every value in which a list whose mode is None is empty |
| ReporterHttpResponsesDistRequest.Layout | net-reporter-api/src/api/http_responses_dist/http_responses_dist_request.rs:49-70 | the root struct's values are exactly, in order, the elements of "start_date_time" (int), "end_date_time" (int), "filters" (blob of the child's encoding) |
| ReporterHttpResponsesDistRequest.ReadChildren | net-reporter-api/src/api/http_responses_dist/http_responses_dist_request.rs:74-94 | the positional read of the encoded root's children gives back the normalised value |
| ReporterHttpResponsesDistRequest.Normal | net-reporter-api/src/api/http_responses_dist/http_responses_dist_request.rs:74-94 | the normalised value (every list whose mode is None emptied) is canonical, and equals the value exactly when the value is canonical |
| ReporterHttpResponsesDistRequest.Reencode | net-reporter-api/src/api/http_responses_dist/http_responses_dist_request.rs:74-94 | decoding the encoding of any value gives its normalised value: a list held with mode None comes back empty, every other field unchanged |
| ReporterHttpResponsesDistRequest.FiltersListWithoutModeIsLost | net-reporter-api/src/api/http_responses_dist/http_responses_dist_request.rs:74-94 | for every value that is not canonical (a non-empty list with mode None inside its filters) the round trip fails, with the per-protocol filters standing in for HttpResponsesDistFiltersDTO |
| ReporterHttpResponsesDistribution.Encode | net-reporter-api/src/api/http_responses_distribution/http_responses_distribution.rs:37-57 | the bytes are the serialisation of one root struct holding, in order, "http_responses_buckets" (list of blobs, one per element's encoding); each write is proved to fit that layout and to obey the rules of the writer |
| ReporterHttpResponsesDistribution.Read | net-reporter-api/src/api/http_responses_distribution/http_responses_distribution.rs:61-77 | from a fresh reader, yields the positional reading of the stream's first value (None wherever the source's unwrap or todo! would panic) and leaves the reader inside the list, as this decode steps out of neither the list nor the root |
| ReporterHttpResponsesDistribution.Decode | net-reporter-api/src/api/http_responses_distribution/http_responses_distribution.rs:61-77 | equals parsing the bytes and reading the root positionally; a malformed stream or value is None |
| ReporterHttpResponsesDistribution.RoundTrip | net-reporter-api/src/api/http_responses_distribution/http_responses_distribution.rs:144-161 | decoding the encoding gives the value back |
| ReporterHttpResponsesDistributionRequest.Encode | net-reporter-api/src/api/http_responses_distribution/http_responses_distribution_request.rs:49-70 | the bytes are the serialisation of one root struct holding, in order, "start_date_time" (int), "end_date_time" (int), "filters" (blob of the child's encoding); each write is proved to fit that layout and to obey the rules of the writer |
| ReporterHttpResponsesDistributionRequest.Read | net-reporter-api/src/api/http_responses_distribution/http_responses_distribution_request.rs:74-94 | from a fresh reader, yields the positional reading of the stream's first value (None wherever the source's unwrap or todo! would panic) and leaves the reader inside the root struct, which this decode never steps out of |
| ReporterHttpResponsesDistributionRequest.Decode | net-reporter-api/src/api/http_responses_distribution/http_responses_distribution_request.rs:74-94 | equals parsing the bytes and reading the root positionally; a malformed stream or value is None |
| ReporterHttpResponsesDistributionRequest.RoundTrip | net-reporter-api/src/api/http_responses_distribution/http_responses_distribution_request.rs:166-175 | decoding the encoding gives the value back for every value in which a list whose mode is None is empty |
| ReporterHttpResponsesDistributionRequest.Layout | net-reporter-api/src/api/http_responses_distribution/http_responses_distribution_request.rs:49-70 | the root struct's values are exactly, in order, the elements of "start_date_time" (int), "end_date_time" (int), "filters" (blob of the child's encoding) |
| ReporterHttpResponsesDistributionRequest.ReadChildren | net-reporter-api/src/api/http_responses_distribution/http_responses_distribution_request.rs:74-94 | the positional read of the encoded root's children gives back the normalised value |
| ReporterHttpResponsesDistributionRequest.Normal | net-reporter-api/src/api/http_responses_distribution/http_responses_distribution_request.rs:74-94 | the normalised value (every list whose mode is None emptied) is canonical, and equals the value exactly when the value is canonical |
| ReporterHttpResponsesDistributionRequest.Reencode | net-reporter-api/src/api/http_responses_distribution/http_responses_distribution_request.rs:74-94 | decoding the encoding of any value gives its normalised value: a list held with mode None comes back empty, every other field unchanged |
| ReporterHttpResponsesDistributionRequest.FiltersListWithoutModeIsLost | net-reporter-api/src/api/http_responses_distribution/http_responses_distribution_request.rs:74-94 | for every value that is not canonical (a non-empty list with mode None inside its filters) the round trip fails, with the per-protocol filters standing in for HttpResponsesDistributionFiltersDTO |
| ReporterHttpResponsesFilters.Encode | net-reporter-api/src/api/http_responses/http_responses_filters.rs:74-126 | the bytes are the serialisation of one root struct holding, in order, "include_http_responses_mode" (bool, or null bool when the mode is absent, then the int list "http_responses" only when it is present), "include_endpoints_mode" (bool, or null bool when the mode is absent, then the string list "endpoints" only when it is present), "bytes_lower_bound" (int or null int), "bytes_upper_bound" (int or null int); each write is proved to fit that layout and to obey the rules of the writer |
| ReporterHttpResponsesFilters.Read | net-reporter-api/src/api/http_responses/http_responses_filters.rs:130-196 | from a fresh reader, yields the positional reading of the stream's first value (None wherever the source's unwrap or todo! would panic) and leaves the reader inside the root struct, which this decode never steps out of |
| ReporterHttpResponsesFilters.Decode | net-reporter-api/src/api/http_responses/http_responses_filters.rs:130-196 | equals parsing the bytes and reading the root positionally; a malformed stream or value is None |
| ReporterHttpResponsesFilters.RoundTrip | net-reporter-api/src/api/http_responses/http_responses_filters.rs:385-400 | decoding the encoding gives the value back for every value in which a list whose mode is None is empty |
| ReporterHttpResponsesFilters.Layout | net-reporter-api/src/api/http_responses/http_responses_filters.rs:74-126 | the root struct's values are exactly, in order, the elements of "include_http_responses_mode" (bool, or null bool when the mode is absent, then the int list "http_responses" only when it is present), "include_endpoints_mode" (bool, or null bool when the mode is absent, then the string list "endpoints" only when it is present), "bytes_lower_bound" (int or null int), "bytes_upper_bound" (int or null int) |
| ReporterHttpResponsesFilters.ReadChildren | net-reporter-api/src/api/http_responses/http_responses_filters.rs:130-196 | the positional read of the encoded root's children gives back the normalised value |
| ReporterHttpResponsesFilters.Normal | net-reporter-api/src/api/http_responses/http_responses_filters.rs:130-196 | the normalised value (every list whose mode is None emptied) is canonical, and equals the value exactly when the value is canonical |
| ReporterHttpResponsesFilters.Reencode | net-reporter-api/src/api/http_responses/http_responses_filters.rs:130-196 | decoding the encoding of any value gives its normalised value: a list held with mode None comes back empty, every other field unchanged |
| ReporterHttpResponsesFilters.ListWithoutModeIsLost | net-reporter-api/src/api/http_responses/http_responses_filters.rs:130-196 | for every value that is not canonical (a non-empty list with mode None) the round trip fails |
| ReporterHttpResponsesFilters.BlobRoundTrip | net-reporter-api/src/api/http_responses/http_responses_request.rs:74-95 | the parent reading this child's blob back with as_blob().unwrap() and decode gets the value |
| ReporterHttpResponsesFilters.BlobReencode | net-reporter-api/src/api/http_responses/http_responses_request.rs:74-95 | the parent reading this child's blob back gets the child's normalised value |
| ReporterHttpResponsesFilters.NextOne | net-reporter-api/src/api/http_responses/http_responses_request.rs:74-95 | next, as_blob().unwrap() and decode: the reader stays at its level and the result is the blob at the next position decoded, None when it is missing or not a blob |
| ReporterHttpResponsesRequest.Encode | net-reporter-api/src/api/http_responses/http_responses_request.rs:49-70 | the bytes are the serialisation of one root struct holding, in order, "start_date_time" (int), "end_date_time" (int), "filters" (blob of the child's encoding); each write is proved to fit that layout and to obey the rules of the writer |
| ReporterHttpResponsesRequest.Read | net-reporter-api/src/api/http_responses/http_responses_request.rs:74-95 | from a fresh reader, yields the positional reading of the stream's first value (None wherever the source's unwrap or todo! would panic) and leaves the reader inside the root struct, which this decode never steps out of |
| ReporterHttpResponsesRequest.Decode | net-reporter-api/src/api/http_responses/http_responses_request.rs:74-95 | equals parsing the bytes and reading the root positionally; a malformed stream or value is None |
| ReporterHttpResponsesRequest.RoundTrip | net-reporter-api/src/api/http_responses/http_responses_request.rs:170-179 | decoding the encoding gives the value back for every value in which a list whose mode is None is empty |
| ReporterHttpResponsesRequest.Layout | net-reporter-api/src/api/http_responses/http_responses_request.rs:49-70 | the root struct's values are exactly, in order, the elements of "start_date_time" (int), "end_date_time" (int), "filters" (blob of the child's encoding) |
| ReporterHttpResponsesRequest.ReadChildren | net-reporter-api/src/api/http_responses/http_responses_request.rs:74-95 | the positional read of the encoded root's children gives back the normalised value |
| ReporterHttpResponsesRequest.Normal | net-reporter-api/src/api/http_responses/http_responses_request.rs:74-95 | the normalised value (every list whose mode is None emptied) is canonical, and equals the value exactly when the value is canonical |
| ReporterHttpResponsesRequest.Reencode | net-reporter-api/src/api/http_responses/http_responses_request.rs:74-95 | decoding the encoding of any value gives its normalised value: a list held with mode None comes back empty, every other field unchanged |
| ReporterHttpResponsesRequest.FiltersListWithoutModeIsLost | net-reporter-api/src/api/http_responses/http_responses_request.rs:74-95 | for every value that is not canonical (a non-empty list with mode None inside its filters) the round trip fails |
| ReporterNetworkGraph.Encode | net-reporter-api/src/api/network_graph/network_graph.rs:46-72 | the bytes are the serialisation of one root struct holding, in order, "graph_nodes" (list of blobs, one per element's encoding), "graph_edges" (list of blobs, one per element's encoding); each write is proved to fit that layout and to obey the rules of the writer |
| ReporterNetworkGraph.Read | net-reporter-api/src/api/network_graph/network_graph.rs:76-106 | from a fresh reader, yields the positional reading of the stream's first value (None wherever the source's unwrap or todo! would panic) and steps out of every container it entered |
| ReporterNetworkGraph.Decode | net-reporter-api/src/api/network_graph/network_graph.rs:76-106 | equals parsing the bytes and reading the root positionally; a malformed stream or value is None |
| ReporterNetworkGraph.RoundTrip | net-reporter-api/src/api/network_graph/network_graph.rs:190-206 | decoding the encoding gives the value back |
| ReporterNetworkGraphRequest.Encode | net-reporter-api/src/api/network_graph/network_graph_request.rs:49-70 | the bytes are the serialisation of one root struct holding, in order, "start_date_time" (int), "end_date_time" (int), "filters" (blob of the child's encoding); each write is proved to fit that layout and to obey the rules of the writer |
| ReporterNetworkGraphRequest.Read | net-reporter-api/src/api/network_graph/network_graph_request.rs:74-94 | from a fresh reader, yields the positional reading of the stream's first value (None wherever the source's unwrap or todo! would panic) and leaves the reader inside the root struct, which this decode never steps out of |
| ReporterNetworkGraphRequest.Decode | net-reporter-api/src/api/network_graph/network_graph_request.rs:74-94 | equals parsing the bytes and reading the root positionally; a malformed stream or value is None |
| ReporterNetworkGraphRequest.RoundTrip | net-reporter-api/src/api/network_graph/network_graph_request.rs:170-179 | decoding the encoding gives the value back for every value in which a list whose mode is None is empty |
| ReporterNetworkGraphRequest.Layout | net-reporter-api/src/api/network_graph/network_graph_request.rs:49-70 | the root struct's values are exactly, in order, the elements of "start_date_time" (int), "end_date_time" (int), "filters" (blob of the child's encoding) |
| ReporterNetworkGraphRequest.ReadChildren | net-reporter-api/src/api/network_graph/network_graph_request.rs:74-94 | the positional read of the encoded root's children gives back the normalised value |
| ReporterNetworkGraphRequest.Normal | net-reporter-api/src/api/network_graph/network_graph_request.rs:74-94 | the normalised value (every list whose mode is None emptied) is canonical, and equals the value exactly when the value is canonical |
| ReporterNetworkGraphRequest.Reencode | net-reporter-api/src/api/network_graph/network_graph_request.rs:74-94 | decoding the encoding of any value gives its normalised value: a list held with mode None comes back empty, every other field unchanged |
| ReporterNetworkGraphRequest.FiltersListWithoutModeIsLost | net-reporter-api/src/api/network_graph/network_graph_request.rs:74-94 | for every value that is not canonical (a non-empty list with mode None inside its filters) the round trip fails, with the per-endpoint filters standing in for NetworkGraphFiltersDTO |
| ReporterOverviewFilters.Encode | net-reporter-api/src/api/network_overview_dashboard_filters/network_overview_dashbord_filters.rs:39-58 | the bytes are the serialisation of one root struct holding, in order, "entries" (list of blobs, one per element's encoding); each write is proved to fit that layout and to obey the rules of the writer |
| ReporterOverviewFilters.Read | net-reporter-api/src/api/network_overview_dashboard_filters/network_overview_dashbord_filters.rs:62-82 | from a fresh reader, yields the positional reading of the stream's first value (None wherever the source's unwrap or todo! would panic) and steps out of every container it entered |
| ReporterOverviewFilters.Decode | net-reporter-api/src/api/network_overview_dashboard_filters/network_overview_dashbord_filters.rs:62-82 | equals parsing the bytes and reading the root positionally; a malformed stream or value is None |
| ReporterOverviewFilters.RoundTrip | net-reporter-api/src/api/network_overview_dashboard_filters/network_overview_dashbord_filters.rs:157-160 | decoding the encoding gives the value back |
| ReporterOverviewFiltersRequest.Encode | net-reporter-api/src/api/network_overview_dashboard_filters/network_overview_dashboard_filters_request.rs:40-58 | the bytes are the serialisation of one root struct holding, in order, "start_date_time" (int), "end_date_time" (int); each write is proved to fit that layout and to obey the rules of the writer |
| ReporterOverviewFiltersRequest.Read | net-reporter-api/src/api/network_overview_dashboard_filters/network_overview_dashboard_filters_request.rs:62-78 | from a fresh reader, yields the positional reading of the stream's first value (None wherever the source's unwrap or todo! would panic) and leaves the reader inside the root struct, which this decode never steps out of |
| ReporterOverviewFiltersRequest.Decode | net-reporter-api/src/api/network_overview_dashboard_filters/network_overview_dashboard_filters_request.rs:62-78 | equals parsing the bytes and reading the root positionally; a malformed stream or value is None |
| ReporterOverviewFiltersRequest.RoundTrip | net-reporter-api/src/api/network_overview_dashboard_filters/network_overview_dashboard_filters_request.rs:130-139 | decoding the encoding gives the value back |
| ReporterProtocol.Encode | net-reporter-api/src/api/network_bandwidth_per_protocol/protocol.rs:40-58 | the bytes are the serialisation of one root struct holding, in order, "name" (string), "total_bytes" (int); each write is proved to fit that layout and to obey the rules of the writer |
| ReporterProtocol.Read | net-reporter-api/src/api/network_bandwidth_per_protocol/protocol.rs:62-78 | from a fresh reader, yields the positional reading of the stream's first value (None wherever the source's unwrap or todo! would panic) and leaves the reader inside the root struct, which this decode never steps out of |
| ReporterProtocol.Decode | net-reporter-api/src/api/network_bandwidth_per_protocol/protocol.rs:62-78 | equals parsing the bytes and reading the root positionally; a malformed stream or value is None |
| ReporterProtocol.RoundTrip | net-reporter-api/src/api/network_bandwidth_per_protocol/protocol.rs:127-133 | decoding the encoding gives the value back |
| ReporterProtocol.BlobRoundTrip | net-reporter-api/src/api/network_bandwidth_per_protocol/network_bandwidth_per_protocol.rs:62-80 | the parent reading this child's blob back with as_blob().unwrap() and decode gets the value |
| ReporterProtocol.EncodeAll | net-reporter-api/src/api/network_bandwidth_per_protocol/network_bandwidth_per_protocol.rs:38-58 | one encoding per element, in order, each the element's own encoding |
| ReporterProtocol.DecodeAll | net-reporter-api/src/api/network_bandwidth_per_protocol/network_bandwidth_per_protocol.rs:62-80 | every element read as a blob and decoded, in order; None as soon as one is not a blob or does not decode |
| ReporterProtocol.NextAll | net-reporter-api/src/api/network_bandwidth_per_protocol/network_bandwidth_per_protocol.rs:62-80 | next, step_in, read_all_elements, the decode loop, step_out: the reader stays at its level and the result is the next list decoded element by element, in order |
| ReporterRequestResult.Encode | net-reporter-api/src/api/request_result/request_result.rs:57-84 | the bytes are the serialisation of one root struct holding, in order, "is_ok" (bool), "description" (string or null string), "response" (blob of the envelope's encoding or null blob); each write is proved to fit that layout and to obey the rules of the writer |
| ReporterRequestResult.Read | net-reporter-api/src/api/request_result/request_result.rs:88-130 | from a fresh reader, yields the positional reading of the stream's first value (None wherever the source's unwrap or todo! would panic) and steps out of every container it entered |
| ReporterRequestResult.Decode | net-reporter-api/src/api/request_result/request_result.rs:88-130 | equals parsing the bytes and reading the root positionally; a malformed stream or value is None |
| ReporterRequestResult.RoundTrip | net-reporter-api/src/api/request_result/request_result.rs:203-225 | decoding the encoding gives the value back |
| ReporterRequestResult.Layout | net-reporter-api/src/api/request_result/request_result.rs:57-84 | the root struct's values are exactly, in order, the elements of "is_ok" (bool), "description" (string or null string), "response" (blob of the envelope's encoding or null blob) |
| ReporterRequestResult.ReadChildren | net-reporter-api/src/api/request_result/request_result.rs:88-130 | the positional read of the encoded root's children gives back the value itself |
| ReporterRequestResult.GetDescription | net-reporter-api/src/api/request_result/request_result.rs:45-49 | Err("There is no description provided") exactly when the description is absent, and otherwise Ok of the description |
| ReporterTotalHttpRequests.Encode | net-reporter-api/src/api/total_http_requests/total_http_requests.rs:39-59 | the bytes are the serialisation of one root struct holding, in order, "http_requests_buckets" (list of blobs, one per element's encoding); each write is proved to fit that layout and to obey the rules of the writer |
| ReporterTotalHttpRequests.Read | net-reporter-api/src/api/total_http_requests/total_http_requests.rs:63-79 | from a fresh reader, yields the positional reading of the stream's first value (None wherever the source's unwrap or todo! would panic) and leaves the reader inside the list, as this decode steps out of neither the list nor the root |
| ReporterTotalHttpRequests.Decode | net-reporter-api/src/api/total_http_requests/total_http_requests.rs:63-79 | equals parsing the bytes and reading the root positionally; a malformed stream or value is None |
| ReporterTotalHttpRequests.RoundTrip | net-reporter-api/src/api/total_http_requests/total_http_requests.rs:155-182 | decoding the encoding gives the value back |
| ReporterTotalHttpRequestsRequest.Encode | net-reporter-api/src/api/total_http_requests/request_total_http_requests.rs:49-70 | the bytes are the serialisation of one root struct holding, in order, "start_date_time" (int), "end_date_time" (int), "filters" (blob of the child's encoding); each write is proved to fit that layout and to obey the rules of the writer |
| ReporterTotalHttpRequestsRequest.Read | net-reporter-api/src/api/total_http_requests/request_total_http_requests.rs:74-95 | from a fresh reader, yields the positional reading of the stream's first value (None wherever the source's unwrap or todo! would panic) and leaves the reader inside the root struct, which this decode never steps out of |
| ReporterTotalHttpRequestsRequest.Decode | net-reporter-api/src/api/total_http_requests/request_total_http_requests.rs:74-95 | equals parsing the bytes and reading the root positionally; a malformed stream or value is None |
| ReporterTotalHttpRequestsRequest.RoundTrip | net-reporter-api/src/api/total_http_requests/request_total_http_requests.rs:170-179 | decoding the encoding gives the value back for every value in which a list whose mode is None is empty |
| ReporterTotalHttpRequestsRequest.Layout | net-reporter-api/src/api/total_http_requests/request_total_http_requests.rs:49-70 | the root struct's values are exactly, in order, the elements of "start_date_time" (int), "end_date_time" (int), "filters" (blob of the child's encoding) |
| ReporterTotalHttpRequestsRequest.ReadChildren | net-reporter-api/src/api/total_http_requests/request_total_http_requests.rs:74-95 | the positional read of the encoded root's children gives back the normalised value |
| ReporterTotalHttpRequestsRequest.Normal | net-reporter-api/src/api/total_http_requests/request_total_http_requests.rs:74-95 | the normalised value (every list whose mode is None emptied) is canonical, and equals the value exactly when the value is canonical |
| ReporterTotalHttpRequestsRequest.Reencode | net-reporter-api/src/api/total_http_requests/request_total_http_requests.rs:74-95 | decoding the encoding of any value gives its normalised value: a list held with mode None comes back empty, every other field unchanged |
| ReporterTotalHttpRequestsRequest.FiltersListWithoutModeIsLost | net-reporter-api/src/api/total_http_requests/request_total_http_requests.rs:74-95 | for every value that is not canonical (a non-empty list with mode None inside its filters) the round trip fails, with the per-endpoint filters standing in for TotalHttpRequestsFiltersDTO |
| TimescaleBandwidthPerEndpoint.Encode | net-timescale-api/src/api/bandwidth_per_endpoint/bandwidth_per_endpoint.rs:42-62 | the bytes are the serialisation of one root struct holding, in order, "endpoints" (list of blobs, one per element's encoding); each write is proved to fit that layout and to obey the rules of the writer |
| TimescaleBandwidthPerEndpoint.Read | net-timescale-api/src/api/bandwidth_per_endpoint/bandwidth_per_endpoint.rs:66-82 | from a fresh reader, yields the positional reading of the stream's first value (None wherever the source's unwrap or todo! would panic) and leaves the reader inside the list, as this decode steps out of neither the list nor the root |
| TimescaleBandwidthPerEndpoint.Decode | net-timescale-api/src/api/bandwidth_per_endpoint/bandwidth_per_endpoint.rs:66-82 | equals parsing the bytes and reading the root positionally; a malformed stream or value is None |
| TimescaleBandwidthPerEndpoint.RoundTrip | net-timescale-api/src/api/bandwidth_per_endpoint/bandwidth_per_endpoint.rs:154-179 | decoding the encoding gives the value back |
| TimescaleBandwithBucket.Encode | net-timescale-api/src/api/network_bandwith/bandwith_bucket.rs:33-63 | the bytes are the serialisation of one root struct holding, in order, "bucket_timestamp" (int), "total_bytes" (int); each write is proved to fit that layout and to obey the rules of the writer |
| TimescaleBandwithBucket.Read | net-timescale-api/src/api/network_bandwith/bandwith_bucket.rs:67-83 | from a fresh reader, yields the positional reading of the stream's first value (None wherever the source's unwrap or todo! would panic) and leaves the reader inside the root struct, which this decode never steps out of |
| TimescaleBandwithBucket.Decode | net-timescale-api/src/api/network_bandwith/bandwith_bucket.rs:67-83 | equals parsing the bytes and reading the root positionally; a malformed stream or value is None |
| TimescaleBandwithBucket.RoundTrip | net-timescale-api/src/api/network_bandwith/bandwith_bucket.rs:126-135 | decoding the encoding gives the value back |
| TimescaleBandwithBucket.BlobRoundTrip | net-timescale-api/src/api/network_bandwith/network_bandwith.rs:66-85 | the parent reading this child's blob back with as_blob().unwrap() and decode gets the value |
| TimescaleBandwithBucket.EncodeAll | net-timescale-api/src/api/network_bandwith/network_bandwith.rs:30-62 | one encoding per element, in order, each the element's own encoding |
| TimescaleBandwithBucket.DecodeAll | net-timescale-api/src/api/network_bandwith/network_bandwith.rs:66-85 | every element read as a blob and decoded, in order; None as soon as one is not a blob or does not decode |
| TimescaleBandwithBucket.NextAll | net-timescale-api/src/api/network_bandwith/network_bandwith.rs:66-85 | next, step_in, read_all_elements, the decode loop, step_out: the reader stays at its level and the result is the next list decoded element by element, in order |
| TimescaleDashboard.Encode | net-timescale-api/src/api/dashboard/dashboard.rs:46-97 | the bytes are the serialisation of one root struct holding, in order, "charts" (list of inline structs); each write is proved to fit that layout and to obey the rules of the writer |
| TimescaleDashboard.Read | net-timescale-api/src/api/dashboard/dashboard.rs:101-125 | from a fresh reader, yields the positional reading of the stream's first value (None wherever the source's unwrap or todo! would panic) and steps out of every container it entered |
| TimescaleDashboard.Decode | net-timescale-api/src/api/dashboard/dashboard.rs:101-125 | equals parsing the bytes and reading the root positionally; a malformed stream or value is None |
| TimescaleDashboard.RoundTrip | net-timescale-api/src/api/dashboard/dashboard.rs:220-242 | decoding the encoding gives the value back |
| TimescaleDashboard.Layout | net-timescale-api/src/api/dashboard/dashboard.rs:46-97 | the root struct's values are exactly, in order, the elements of "charts" (list of inline structs) |
| TimescaleDashboard.ReadChildren | net-timescale-api/src/api/dashboard/dashboard.rs:101-125 | the positional read of the encoded root's children gives back the value itself |
| TimescaleDashboardBlobRequest.Encode | net-timescale-api/src/api/dashboard/dashboard_request.rs:44-64 | the bytes are the serialisation of one root struct holding, in order, "chart_requests" (list of blobs, one per element's encoding); each write is proved to fit that layout and to obey the rules of the writer |
| TimescaleDashboardBlobRequest.Read | net-timescale-api/src/api/dashboard/dashboard_request.rs:68-87 | from a fresh reader, yields the positional reading of the stream's first value (None wherever the source's unwrap or todo! would panic) and steps out of every container it entered |
| TimescaleDashboardBlobRequest.Decode | net-timescale-api/src/api/dashboard/dashboard_request.rs:68-87 | equals parsing the bytes and reading the root positionally; a malformed stream or value is None |
| TimescaleDashboardBlobRequest.RoundTrip | net-timescale-api/src/api/dashboard/dashboard_request.rs:161-183 | decoding the encoding gives the value back |
| TimescaleDashboardRequest.Encode | net-timescale-api/src/api/dashboard_request.rs:33-84 | the bytes are the serialisation of one root struct holding, in order, "chart_requests" (list of inline structs); each write is proved to fit that layout and to obey the rules of the writer |
| TimescaleDashboardRequest.Read | net-timescale-api/src/api/dashboard_request.rs:88-112 | from a fresh reader, yields the positional reading of the stream's first value (None wherever the source's unwrap or todo! would panic) and steps out of every container it entered |
| TimescaleDashboardRequest.Decode | net-timescale-api/src/api/dashboard_request.rs:88-112 | equals parsing the bytes and reading the root positionally; a malformed stream or value is None |
| TimescaleDashboardRequest.RoundTrip | net-timescale-api/src/api/dashboard_request.rs:196-218 | decoding the encoding gives the value back |
| TimescaleDashboardRequest.Layout | net-timescale-api/src/api/dashboard_request.rs:33-84 | the root struct's values are exactly, in order, the elements of "chart_requests" (list of inline structs) |
| TimescaleDashboardRequest.ReadChildren | net-timescale-api/src/api/dashboard_request.rs:88-112 | the positional read of the encoded root's children gives back the value itself |
| TimescaleFilterEntry.Encode | net-timescale-api/src/api/network_overview_dashboard_filters/filter_entry.rs:58-98 | the bytes are the serialisation of one root struct holding, in order, "endpoint" (string), "protocols" (list of strings), "bytes_rec" (int), "bytes_sent" (int); each write is proved to fit that layout and to obey the rules of the writer |
| TimescaleFilterEntry.Read | net-timescale-api/src/api/network_overview_dashboard_filters/filter_entry.rs:102-135 | from a fresh reader, yields the positional reading of the stream's first value (None wherever the source's unwrap or todo! would panic) and steps out of every container it entered |
| TimescaleFilterEntry.Decode | net-timescale-api/src/api/network_overview_dashboard_filters/filter_entry.rs:102-135 | equals parsing the bytes and reading the root positionally; a malformed stream or value is None |
| TimescaleFilterEntry.RoundTrip | net-timescale-api/src/api/network_overview_dashboard_filters/filter_entry.rs:202-208 | decoding the encoding gives the value back |
| TimescaleFilterEntry.BlobRoundTrip | net-timescale-api/src/api/overview_dashboard_filters/overview_dashbord_filters.rs:77-97 | the parent reading this child's blob back with as_blob().unwrap() and decode gets the value |
| TimescaleFilterEntry.EncodeAll | net-timescale-api/src/api/overview_dashboard_filters/overview_dashbord_filters.rs:42-73 | one encoding per element, in order, each the element's own encoding |
| TimescaleFilterEntry.DecodeAll | net-timescale-api/src/api/overview_dashboard_filters/overview_dashbord_filters.rs:77-97 | every element read as a blob and decoded, in order; None as soon as one is not a blob or does not decode |
| TimescaleFilterEntry.NextAll | net-timescale-api/src/api/overview_dashboard_filters/overview_dashbord_filters.rs:77-97 | next, step_in, read_all_elements, the decode loop, step_out: the reader stays at its level and the result is the next list decoded element by element, in order |
| TimescaleFilteredGraphRequest.Encode | net-timescale-api/src/api/network_graph_request.rs:48-101 | the bytes are the serialisation of one root struct holding, in order, "start_date_time" (int), "end_date_time" (int), "subscribe" (bool), "filters" (inline struct or null struct); each write is proved to fit that layout and to obey the rules of the writer |
| TimescaleFilteredGraphRequest.Read | net-timescale-api/src/api/network_graph_request.rs:105-159 | from a fresh reader, yields the positional reading of the stream's first value (None wherever the source's unwrap or todo! would panic) and steps out of every container it entered |
| TimescaleFilteredGraphRequest.Decode | net-timescale-api/src/api/network_graph_request.rs:105-159 | equals parsing the bytes and reading the root positionally; a malformed stream or value is None |
| TimescaleFilteredGraphRequest.RoundTrip | net-timescale-api/src/api/network_graph_request.rs:232-267 | decoding the encoding gives the value back |
| TimescaleFilteredGraphRequest.Layout | net-timescale-api/src/api/network_graph_request.rs:48-101 | the root struct's values are exactly, in order, the elements of "start_date_time" (int), "end_date_time" (int), "subscribe" (bool), "filters" (inline struct or null struct) |
| TimescaleFilteredGraphRequest.ReadChildren | net-timescale-api/src/api/network_graph_request.rs:105-159 | the positional read of the encoded root's children gives back the value itself |
| TimescaleFilters.Encode | net-timescale-api/src/api/filters.rs:35-69 | the bytes are the serialisation of one root struct holding, in order, "include" (bool), "filters" (list of strings); each write is proved to fit that layout and to obey the rules of the writer |
| TimescaleFilters.Read | net-timescale-api/src/api/filters.rs:73-99 | from a fresh reader, yields the positional reading of the stream's first value (None wherever the source's unwrap or todo! would panic) and steps out of every container it entered |
| TimescaleFilters.Decode | net-timescale-api/src/api/filters.rs:73-99 | equals parsing the bytes and reading the root positionally; a malformed stream or value is None |
| TimescaleFilters.RoundTrip | net-timescale-api/src/api/filters.rs:153-166 | decoding the encoding gives the value back |
| TimescaleFilters.ReadChildren | net-timescale-api/src/api/filters.rs:73-99 | the positional read of the encoded root's children gives back the value itself |
| TimescaleFilters.NestedOf | net-timescale-api/src/api/network_graph_request.rs:105-159 | the struct encode writes inline reads back as the value, and the read goes on after it |
| TimescaleFilters.MaybeNestedOf | net-timescale-api/src/api/network_graph_request.rs:105-159 | a present value written inline, or an absent one written as a null struct, reads back as itself |
| TimescaleFilters.PutNested | net-timescale-api/src/api/network_graph_request.rs:48-101 | set_field_name, step_in(Struct), the fields, step_out: exactly the struct encode writes becomes the next field of the parent, nothing around it changes |
| TimescaleFilters.PutMaybeNested | net-timescale-api/src/api/network_graph_request.rs:48-101 | a present value is written inline as PutNested does; an absent one is a null struct; either way the next field of the parent |
| TimescaleFilters.Inside | net-timescale-api/src/api/network_graph_request.rs:105-159 | after the parent has stepped into the struct: its fields are read positionally and the reader is brought back to the level it started at |
| TimescaleFilters.NextNested | net-timescale-api/src/api/network_graph_request.rs:105-159 | next, step_in, the fields, step_out: the result is the inline struct at the next position read positionally, None when that position is not a container |
| TimescaleFilters.NextMaybeNested | net-timescale-api/src/api/network_graph_request.rs:105-159 | next, then a null gives no value, a container is read inline, and a missing position fails like the todo! branch |
| TimescaleGraphEdge.ByNameRoundTrip | net-timescale-api/src/api/network_graph/network_graph.rs:114-153 | a struct written by encode reads back as the value when its fields are looked up by name |
| TimescaleGraphEdge.NestedListOf | net-timescale-api/src/api/network_graph/network_graph.rs:114-153 | a list of these written inline reads back element by element, by name, as the same values in the same order |
| TimescaleGraphEdge.WriteNested | net-timescale-api/src/api/network_graph/network_graph.rs:49-110 | step_in(Struct), the fields, step_out inside an open list: exactly the struct encode describes is appended to the list |
| TimescaleGraphEdge.WriteNestedAll | net-timescale-api/src/api/network_graph/network_graph.rs:49-110 | the loop over the elements: the list gains each element's struct, in order, and nothing else |
| TimescaleGraphEdge.PutNestedAll | net-timescale-api/src/api/network_graph/network_graph.rs:49-110 | set_field_name, step_in(List), the loop, step_out: the list of the elements' structs becomes the next field of the parent |
| TimescaleGraphNode.Encode | net-timescale-api/src/api/network_graph/graph_node.rs:36-66 | the bytes are the serialisation of one root struct holding, in order, "node_id" (string), "agent_id" (string); each write is proved to fit that layout and to obey the rules of the writer |
| TimescaleGraphNode.Read | net-timescale-api/src/api/network_graph/graph_node.rs:70-88 | from a fresh reader, yields the positional reading of the stream's first value (None wherever the source's unwrap or todo! would panic) and leaves the reader inside the root struct, which this decode never steps out of |
| TimescaleGraphNode.Decode | net-timescale-api/src/api/network_graph/graph_node.rs:70-88 | equals parsing the bytes and reading the root positionally; a malformed stream or value is None |
| TimescaleGraphNode.RoundTrip | net-timescale-api/src/api/network_graph/graph_node.rs:137-144 | decoding the encoding gives the value back |
| TimescaleGraphNode.ByNameRoundTrip | net-timescale-api/src/api/network_graph/network_graph.rs:114-153 | a struct written by encode reads back as the value when its fields are looked up by name |
| TimescaleGraphNode.NestedListOf | net-timescale-api/src/api/network_graph/network_graph.rs:114-153 | a list of these written inline reads back element by element, by name, as the same values in the same order |
| TimescaleGraphNode.WriteNested | net-timescale-api/src/api/network_graph/network_graph.rs:49-110 | step_in(Struct), the fields, step_out inside an open list: exactly the struct encode describes is appended to the list |
| TimescaleGraphNode.WriteNestedAll | net-timescale-api/src/api/network_graph/network_graph.rs:49-110 | the loop over the elements: the list gains each element's struct, in order, and nothing else |
| TimescaleGraphNode.PutNestedAll | net-timescale-api/src/api/network_graph/network_graph.rs:49-110 | set_field_name, step_in(List), the loop, step_out: the list of the elements' structs becomes the next field of the parent |
| TimescaleNetworkBandwidth.Encode | net-timescale-api/src/api/network_bandwidth/network_bandwidth.rs:39-59 | the bytes are the serialisation of one root struct holding, in order, "bandwidth_buckets" (list of blobs, one per element's encoding); each write is proved to fit that layout and to obey the rules of the writer |
| TimescaleNetworkBandwidth.Read | net-timescale-api/src/api/network_bandwidth/network_bandwidth.rs:63-82 | from a fresh reader, yields the positional reading of the stream's first value (None wherever the source's unwrap or todo! would panic) and leaves the reader inside the list, as this decode steps out of neither the list nor the root |
| TimescaleNetworkBandwidth.Decode | net-timescale-api/src/api/network_bandwidth/network_bandwidth.rs:63-82 | equals parsing the bytes and reading the root positionally; a malformed stream or value is None |
| TimescaleNetworkBandwidth.RoundTrip | net-timescale-api/src/api/network_bandwidth/network_bandwidth.rs:158-184 | decoding the encoding gives the value back |
| TimescaleNetworkBandwith.Encode | net-timescale-api/src/api/network_bandwith/network_bandwith.rs:30-62 | the bytes are the serialisation of one root struct holding, in order, "bandwith_buckets" (list of blobs, one per element's encoding); each write is proved to fit that layout and to obey the rules of the writer |
| TimescaleNetworkBandwith.Read | net-timescale-api/src/api/network_bandwith/network_bandwith.rs:66-85 | from a fresh reader, yields the positional reading of the stream's first value (None wherever the source's unwrap or todo! would panic) and leaves the reader inside the list, as this decode steps out of neither the list nor the root |
| TimescaleNetworkBandwith.Decode | net-timescale-api/src/api/network_bandwith/network_bandwith.rs:66-85 | equals parsing the bytes and reading the root positionally; a malformed stream or value is None |
| TimescaleNetworkBandwith.RoundTrip | net-timescale-api/src/api/network_bandwith/network_bandwith.rs:150-176 | decoding the encoding gives the value back |
| TimescaleNetworkBandwithRequest.Encode | net-timescale-api/src/api/requests/network_bandwith_request.rs:45-75 | the bytes are the serialisation of one root struct holding, in order, "start_date_time" (int), "end_date_time" (int); each write is proved to fit that layout and to obey the rules of the writer |
| TimescaleNetworkBandwithRequest.Read | net-timescale-api/src/api/requests/network_bandwith_request.rs:79-95 | from a fresh reader, yields the positional reading of the stream's first value (None wherever the source's unwrap or todo! would panic) and leaves the reader inside the root struct, which this decode never steps out of |
| TimescaleNetworkBandwithRequest.Decode | net-timescale-api/src/api/requests/network_bandwith_request.rs:79-95 | equals parsing the bytes and reading the root positionally; a malformed stream or value is None |
| TimescaleNetworkBandwithRequest.RoundTrip | net-timescale-api/src/api/requests/network_bandwith_request.rs:146-155 | decoding the encoding gives the value back |
| TimescaleNetworkGraph.Encode | net-timescale-api/src/api/network_graph/network_graph.rs:49-110 | the bytes are the serialisation of one root struct holding, in order, "graph_nodes" (list of inline structs), "graph_edges" (list of inline structs); each write is proved to fit that layout and to obey the rules of the writer |
| TimescaleNetworkGraph.Read | net-timescale-api/src/api/network_graph/network_graph.rs:114-153 | from a fresh reader, yields the positional reading of the stream's first value (None wherever the source's unwrap or todo! would panic) and steps out of every container it entered |
| TimescaleNetworkGraph.Decode | net-timescale-api/src/api/network_graph/network_graph.rs:114-153 | equals parsing the bytes and reading the root positionally; a malformed stream or value is None |
| TimescaleNetworkGraph.RoundTrip | net-timescale-api/src/api/network_graph/network_graph.rs:274-294 | decoding the encoding gives the value back |
| TimescaleNetworkGraph.Layout | net-timescale-api/src/api/network_graph/network_graph.rs:49-110 | the root struct's values are exactly, in order, the elements of "graph_nodes" (list of inline structs), "graph_edges" (list of inline structs) |
| TimescaleNetworkGraph.ReadChildren | net-timescale-api/src/api/network_graph/network_graph.rs:114-153 | the positional read of the encoded root's children gives back the value itself |
| TimescaleNetworkGraphRequest.Encode | net-timescale-api/src/api/network_graph/network_graph_request.rs:47-68 | the bytes are the serialisation of one root struct holding, in order, "start_date_time" (int), "end_date_time" (int), "subscribe" (bool); each write is proved to fit that layout and to obey the rules of the writer |
| TimescaleNetworkGraphRequest.Read | net-timescale-api/src/api/network_graph/network_graph_request.rs:72-92 | from a fresh reader, yields the positional reading of the stream's first value (None wherever the source's unwrap or todo! would panic) and leaves the reader inside the root struct, which this decode never steps out of |
| TimescaleNetworkGraphRequest.Decode | net-timescale-api/src/api/network_graph/network_graph_request.rs:72-92 | equals parsing the bytes and reading the root positionally; a malformed stream or value is None |
| TimescaleNetworkGraphRequest.RoundTrip | net-timescale-api/src/api/network_graph/network_graph_request.rs:150-160 | decoding the encoding gives the value back |
| TimescaleNetworkGraphRequest.ReadChildren | net-timescale-api/src/api/network_graph/network_graph_request.rs:72-92 | the positional read of the encoded root's children gives back the value itself |
| TimescaleNetworkGraphRequest.NestedOf | net-timescale-api/src/api/overview_dashboard_request.rs:73-97 | the struct encode writes inline reads back as the value, and the read goes on after it |
| TimescaleNetworkGraphRequest.PutNested | net-timescale-api/src/api/overview_dashboard_request.rs:31-69 | set_field_name, step_in(Struct), the fields, step_out: exactly the struct encode writes becomes the next field of the parent, nothing around it changes |
| TimescaleNetworkGraphRequest.Inside | net-timescale-api/src/api/overview_dashboard_request.rs:73-97 | after the parent has stepped into the struct: its fields are read positionally and the reader is brought back to the level it started at |
| TimescaleNetworkGraphRequest.NextNested | net-timescale-api/src/api/overview_dashboard_request.rs:73-97 | next, step_in, the fields, step_out: the result is the inline struct at the next position read positionally, None when that position is not a container |
| TimescaleOverviewDashboardRequest.Encode | net-timescale-api/src/api/overview_dashboard_request.rs:31-69 | the bytes are the serialisation of one root struct holding, in order, "network_graph_request" (inline struct); each write is proved to fit that layout and to obey the rules of the writer |
| TimescaleOverviewDashboardRequest.Read | net-timescale-api/src/api/overview_dashboard_request.rs:73-97 | from a fresh reader, yields the positional reading of the stream's first value (None wherever the source's unwrap or todo! would panic) and steps out of every container it entered |
| TimescaleOverviewDashboardRequest.Decode | net-timescale-api/src/api/overview_dashboard_request.rs:73-97 | equals parsing the bytes and reading the root positionally; a malformed stream or value is None |
| TimescaleOverviewDashboardRequest.RoundTrip | net-timescale-api/src/api/overview_dashboard_request.rs:160-174 | decoding the encoding gives the value back |
| TimescaleOverviewDashboardRequest.Layout | net-timescale-api/src/api/overview_dashboard_request.rs:31-69 | the root struct's values are exactly, in order, the elements of "network_graph_request" (inline struct) |
| TimescaleOverviewDashboardRequest.ReadChildren | net-timescale-api/src/api/overview_dashboard_request.rs:73-97 | the positional read of the encoded root's children gives back the value itself |
| TimescaleOverviewFilters.Encode | net-timescale-api/src/api/overview_dashboard_filters/overview_dashbord_filters.rs:42-73 | the bytes are the serialisation of one root struct holding, in order, "entries" (list of blobs, one per element's encoding); each write is proved to fit that layout and to obey the rules of the writer |
| TimescaleOverviewFilters.Read | net-timescale-api/src/api/overview_dashboard_filters/overview_dashbord_filters.rs:77-97 | from a fresh reader, yields the positional reading of the stream's first value (None wherever the source's unwrap or todo! would panic) and steps out of every container it entered |
| TimescaleOverviewFilters.Decode | net-timescale-api/src/api/overview_dashboard_filters/overview_dashbord_filters.rs:77-97 | equals parsing the bytes and reading the root positionally; a malformed stream or value is None |
| TimescaleOverviewFilters.RoundTrip | net-timescale-api/src/api/overview_dashboard_filters/overview_dashbord_filters.rs:175-178 | decoding the encoding gives the value back |
| TimescaleTotalBytesRequest.Encode | net-timescale-api/src/api/total_bytes_request.rs:39-69 | the bytes are the serialisation of one root struct holding, in order, "start_date_time" (int), "end_date_time" (int); each write is proved to fit that layout and to obey the rules of the writer |
| TimescaleTotalBytesRequest.Read | net-timescale-api/src/api/total_bytes_request.rs:73-88 | from a fresh reader, yields the positional reading of the stream's first value (None wherever the source's unwrap or todo! would panic) and leaves the reader inside the root struct, which this decode never steps out of |
| TimescaleTotalBytesRequest.Decode | net-timescale-api/src/api/total_bytes_request.rs:73-88 | equals parsing the bytes and reading the root positionally; a malformed stream or value is None |
| TimescaleTotalBytesRequest.RoundTrip | net-timescale-api/src/api/total_bytes_request.rs:134-143 | decoding the encoding gives the value back |

## Left out

- `ion_rs` itself: the binary and text byte layouts, the builders and the `ion-binary`/`ion-text` feature choice. `IonBytes` replaces the byte format with a simple encoding whose round trip is proved; its bytes are not Ion binary.
- Writer failures: every `write_*`/`step_out` in an `encode` is unwrapped, and the model makes the writer's rules preconditions. Every `Encode` is proved to meet them, so no encode fails.
- The reader's state after a failed decode: the source panics there. `Read` states the reader's depth only for a successful decode. The inline-struct readers (`NextNested`, `NextMaybeNested`) state that the reader stays at its level only when they succeed.
- `Envelope` (net_core_api): its own codec is not shown. The `Envelope` module is a record (group_id?, agent_id?, type, data). Its stand-in codec is one struct in that order, with the two ids as nullable strings read strictly. The inline form used by the dashboards is taken from the dashboard code.
- The timescale `GraphEdgeDTO` (network_graph/graph_edge.rs) is not part of this model. `TimescaleGraphEdge` has only the inline form written and read by the timescale network graph, with the fields that code uses.
- Children whose files are not part of this model are replaced by a shown DTO with the same constructor arguments. The timescale `EndpointDTO` is replaced by the reporter `EndpointDTO`. The timescale `BandwidthBucketDTO` is replaced by the reporter `BandwidthBucketDTO`. `HttpRequestDTO` is replaced by `HttpRequestMethodDTO`. `HttpResponsesDistributionBucketDTO` is replaced by `HttpResponsesBucketDTO`.
- Filters whose files are not part of this model are replaced the same way. `NetworkGraphFiltersDTO` and `TotalHttpRequestsFiltersDTO` are replaced by `NetworkBandwidthPerEndpointFiltersDTO`. `HttpResponsesDistributionFiltersDTO`, `HttpResponsesDistFiltersDTO` and `HttpRequestMethodsDisributionFiltersDTO` are replaced by `NetworkBandwidthPerProtocolFiltersDTO`.
- `OverviewDashboardRequestDTO` imports the four-field network graph request, but its decode calls a three-argument `new`. `TimescaleOverviewDashboardRequest` carries the three-field request of network_graph/network_graph_request.rs, which is what its encode and decode read and write.
- `Struct::get` with repeated field names: `Ion.Get` returns the first field with the name. Which field `ion_rs` returns is not modelled.
- `as_text` and `as_string` are both `Ion.AsString`. The model has no symbols, so they do not differ here.
- Constructors (`new`, `m_new`, `_new`), getters, `into_inner` and `get_type`/`get_data_type` are the datatype constructors, field selectors and the `DATA_TYPE` constants. They store and return their arguments unchanged by construction.
- `Vec::with_capacity`, buffer cloning and other allocation details carry no behaviour.
- Tests whose calls do not match the current signatures are not used as evidence: network_bandwidth_request.rs:136-143, http_clients.rs:114 and overview_dashboard_request.rs:121-125.
- net-timescale-api/src/api/total_bytes/total_bytes.rs (a struct with no codec) and net-reporter-api/src/api/mod.rs (module declarations) have no behaviour to model.
- Type-tag uniqueness is not a property of the source and is not claimed: "http_client", "filter-entry", "network_graph" and "graph_node" each name two DTOs.
