# Verified models of the Go net/http core

This project models four parts of the repository in Dafny and proves what they are for:

* **the router** behind `ServeMux`: patterns, their comparison, the conflict index, the decision tree
  and registration, and the methods listed when none matches (`Patterns`, `Mapping`, `RoutingTree`,
  `RoutingTheorems`, `RoutingNode`, `RoutingIndex`, `ServeMux`, `RoutingMethods`, `RoutingLimits`);
* **the HTTP/2 server engine**: requests to write and how flow control splits them (`WriteQueue`), the
  round-robin scheduler as values and as a linked ring (`RoundRobin`, `RoundRobinRing`), the priority
  scheduler (`PriorityForest`, `PriorityNode`, `PriorityTree`, `PrioritySort`, `PriorityWalk`,
  `PriorityIndex`, `PriorityScheduler`, `PriorityRun`), flow control windows (`FlowControl`), receive credit from end
  to end (`ReceiveCredit`), the chunked buffer of request bodies (`DataBuffer`), frames and their order
  (`Frames`, `FrameOrder`, `Framer`) and their bytes by index and in numbers (`FrameLayout`), and the connection itself: its state and calls (`ServerConn`), what
  arrives (`ServerEvents`), and what is proved of every run: the stream table (`ServerTable`), the
  loop (`ServerLoop`, `ServerDrain`), the output (`ServerOutput`, `ServerStep`), GOAWAY
  (`ServerGoAway`), resets (`ServerSafety`), ends of requests (`ServerEnd`), closes under way
  (`ServerPending`), all of it together (`ServerTheorems`), what each message asks for, in the numbers of RFC 7540
  (`ServerAnswer`), what comes of it step by step (`ServerLedger`) and over whole runs (`ServerBook`), what the loop will take next (`ServerLine`,
  `ServerReach`), when it panics (`ServerPanic`), what that means for the receive windows
  (`ServerCredit`), and runs that do, of the connection (`ServerUnsafeRun`) and of the priority
  scheduler (`ServerPriority`);
* **the Punycode encoder** of `cookiejar` (`Punycode`), against a decoder that shares nothing with it (`Rfc3492`);
* **the Cookie request header**, printed and parsed (`Cookies`).

`Foundations` holds what the parts share: optional values, searching a string, 32-bit integers.

What the source updates in place is a class whose methods are proved against a specification on values:
the routing nodes, the index and the mux, the ring of queues, the nodes of the priority tree, the data
buffer, the windows, the framer, the request header. Each specification is then related to something
that does not mention it: the relation of two patterns to the sets of requests they match, the tree to
the most specific pattern, the encoder to a decoder written out from section 6.2 of RFC 3492, the calls of
the server to the messages it read and the frames it started, the ring to a rotating list, the links of the priority tree to a forest.

The server connection is a step machine. The Go code calls itself: writing a frame may end a stream,
which writes a frame, which runs the scheduling loop. In the model the calls still to be made are part
of the state (`inner` for those inside the loop of `scheduleFrameWrite`, `outer` for those outside), so
that a step is one call and an invariant holds between any two calls, at every depth of re-entry. The
free bytes of the write buffer are part of the state too: a frame is written in place exactly when the
code finds that it stays within the buffer. What the network and the handlers decide (what arrives next,
how much of a frame another goroutine has flushed, how much is announced in a window update) is chosen
freely. The scheduler of this machine is the round-robin one. A run ends at a panic, if there is one.

## Findings

Some properties that the code or its documentation suggests do not hold as they stand. Each comes with
an input or a run that shows it and with the exact condition under which the property does hold.

* **A frame can be started on a closed stream.** `closeStream` removes the stream from the table and
  announces its unread bytes before the scheduler drops its queue (h2_bundle.go:5506-5522). When it is
  called for a frame whose write another goroutine has reported, the announcement starts the scheduling
  loop, which can pop a frame of that stream: the "attempt to send frame on a closed stream" panic.
  `ServerUnsafeRuns.ClosedStreamReached` gives a run from a new connection and
  `ServerPanics.PanicsExactly` the condition: the frames ahead fit the write buffer and leave the head
  of the stream's queue sendable. `ServerCredits.PanicsByCredit` adds what is announced, by the
  connection's receive window and the unread bytes, and `ServerCredits.AmountsOfTheRun` shows that the
  run announces just that. Closes for a RST_STREAM of the client are always safe
  (`ServerPanics.ResetIsSafe`).
* **A stream can be closed twice**, when the RST_STREAM for a handler that panicked is reported after
  its stream was closed (h2_bundle.go:5173-5174): `ServerUnsafeRuns.ClosedTwiceReached`. Of the
  panics in `ServerConns.Panic` it is the only other one that is reachable
  (`ServerTheorems.StepPanics`).
* **The priority scheduler can lose the node of an open stream**, because a stream that is opened while
  idle stays in the list of idle streams (h2_bundle.go:11160-11166); closing it then panics, and so does
  queueing DATA for it. `PrioritySchedulers.OpenStreamLost` does it for every size of the list, and
  `PriorityIndexes.KeptExactly` says exactly which streams keep their nodes.
  `ServerPriorities.PriorityPanicReached` is a run of a new connection whose calls end so.
* **Removing a node from the priority tree cuts off all but its first kid**, because the loop reads the
  next sibling of a node that has moved (h2_bundle.go:11346-11352). `PriorityForests.RemovalKeepsReach`:
  the rest of the tree stays reachable from the root exactly if the removed node has at most one kid.
  `PriorityRuns.StreamCutOff` runs the scheduler until an open stream is cut off, for any limits.
* **The largest weight counts as none**, because weight plus one is computed in eight bits
  (h2_bundle.go:11112-11121, although h2_bundle.go:10997 puts it in [1,256]). Before anything is sent,
  siblings are ordered by weight exactly if both have the largest weight or neither
  (`PrioritySorts.LargestWeightLast`); without it, sorting gives the order of bytes sent for the weight
  (`PrioritySorts.Sort`, `PrioritySorts.LessExactly`).
* **Receive credit is given back twice for bytes that are read after their stream was closed**
  (h2_bundle.go:5506-5512, 6302-6304). `ReceiveCredits.CreditConserved`: over every run the credit is
  conserved up to exactly these bytes, so the window can overflow only with them, and
  `ReceiveCredits.LateReadsPanic` gives a run that does.
* **A PUSH_PROMISE block longer than one frame is refused by the reader of the same package**, since
  `checkFrameOrder` does not track it, and one within four bytes of the fragment size does not fit the
  smallest frame size (h2_bundle.go:1947-1981, 2770-2792). `FrameOrders.PushRead` and
  `FrameOrders.PushFits` give both limits exactly.
* **The Punycode encoder is right only while its deltas fit 32 bits**, because the product at
  cookiejar/punycode.go:60 wraps around and only a negative result is noticed. `Punycode.Encode`: the
  decoder gives back the label exactly if no delta of the label, taken without bounds, reaches 2^31;
  otherwise there is an error or a label that decodes to something else. Every label of up to 1926 code
  points is in range (`Punycode.ShortLabelsInRange`), one of 1927 letters and another code point need
  not be (`Punycode.LongLabelOutOfRange`).
* **The routing tree reserves keys.** It finds the most specific pattern for every table exactly on paths
  without an empty segment and not ending in `*` (`RoutingLimits.ReliableExactlyIfClean`), and, for any
  way of unescaping that has an inverse, for a pattern on all such paths exactly if no literal of it is
  empty or `*` (`RoutingLimits.ReliableExactlyIfReservedFree`, with the path that is answered wrongly in
  `RoutingLimits.MisledPath`). Two patterns with the same keys that do not conflict reach the panic of a
  taken leaf (`ServeMuxes.ServeMux.RegisterErr`), for which one reserved literal suffices:
  `ServeMuxes.LeafTakenByStar` has the pattern of the one segment `*` and that of all paths, and
  `ServeMuxes.RegisterStar` registers them.

## Model

| member | source | states |
|---|---|---|
| Patterns.RelationExact | pattern.go:280-379 | the relation computed segment by segment is exactly the set relation (equal, strict superset, strict subset, disjoint, overlap) between the sets of paths that match |
| Patterns.ComparisonExact | pattern.go:240-276 | the same for methods and paths together, and swapping the patterns inverts the answer |
| Patterns.ComparePaths | pattern.go:280-312 | the loop over the segments computes that relation |
| Patterns.ComparePathsAndMethods | pattern.go:240-248 | the relation of two patterns |
| Patterns.ConflictsWith | pattern.go:229-238 | patterns conflict exactly if their hosts are the same and they are equivalent or overlap |
| Patterns.RelationInverse | pattern.go:383-392 | comparing the other way round gives the inverse relation |
| Patterns.GeneralCovers | pattern.go:280-346 | a pattern that is equivalent or more general matches every path the other matches |
| Patterns.CommonPathMatches | pattern.go:280-346 | paths that are not disjoint have a path that both match |
| Patterns.DifferencePath | pattern.go:465-529 | for overlapping or more general patterns the path built is matched by the first and not by the second |
| Patterns.DifferenceTokensSeparate | pattern.go:465-529 | the same on the tokens of the path, by induction over the segments |
| RoutingLimits.DifferenceReads | pattern.go:465-529 | the string written reads back as a path that the first pattern matches and the second does not, when literals and names are read as they are written |
| Mappings.Mapping.Add | mapping.go:25-38 | adding a key extends the mapping, whichever of slice and map holds it |
| Mappings.Mapping.Find | mapping.go:43-57 | the value of the key, or nothing |
| Mappings.Mapping.EachPair | mapping.go:61-78 | no pair is visited twice, and the visit ends at the first pair the function refuses, or with all |
| Mappings.ToMap | mapping.go:25-38 | moving the slice into a map keeps every pair |
| RoutingTree.MatchPathBest | routing_tree.go:152-197 | below one node, backtracking finds nothing if nothing matches and otherwise the pattern more specific than every other match, with the values of its wildcards |
| RoutingTheorems.HostBest | routing_tree.go:130-146 | among the patterns of one host the method decides first, then GET for HEAD, then any method |
| RoutingTheorems.MatchBest | routing_tree.go:115-125 | for every conflict-free table and every clean path the match is the unique most specific pattern, host patterns first, or nothing if nothing matches |
| RoutingTheorems.PrecedesAsymmetric | pattern.go:229-238 | precedence has no two patterns each before the other, so the best match is unique |
| RoutingTheorems.CapturesAt | routing_tree.go:152-197 | the value recorded for a named wildcard is the part of the path it stands for, at the position that counts the named wildcards before it |
| RoutingTheorems.CapturesLength | routing_tree.go:152-197 | there are exactly as many values as named wildcards |
| RoutingTheorems.PatIndex | request.go:1463-1479 | the index of a name among the named wildcards, or -1 exactly if there is none |
| RoutingTheorems.PathValue | request.go:1441-1446 | the value of a wildcard is the part of the path it stands for; other names give the value set by hand |
| RoutingNodes.RoutingNode.AddChild | routing_tree.go:86-99 | the child for a key, created if missing; other children stay |
| RoutingNodes.RoutingNode.FindChild | routing_tree.go:103-109 | the child for a key, in the mapping or the field for the empty key |
| RoutingNodes.RoutingNode.Set | routing_tree.go:76-82 | a leaf takes one pattern; a second one is the panic |
| RoutingNodes.Descend | routing_tree.go:86-99 | going down one key keeps the tree that of the same routes |
| RoutingNodes.AddSegments | routing_tree.go:56-72 | adding succeeds exactly if no route has the same keys, and then the nodes are the tree of one route more |
| RoutingNodes.AddPattern | routing_tree.go:44-51 | the same from the root |
| RoutingNodes.MatchPathFrom | routing_tree.go:152-197 | walking the nodes gives what matching the set of routes gives |
| RoutingNodes.MatchMethodAndPathFrom | routing_tree.go:130-146 | the same for methods |
| RoutingNodes.MatchFrom | routing_tree.go:115-125 | the same for hosts |
| RoutingMethods.MatchingMethodsPath | routing_tree.go:227-240 | the walk over the children of a host adds exactly the methods under which the search finds a pattern, or dereferences nil exactly if a search does |
| RoutingMethods.MatchingMethods | routing_tree.go:217-225 | both hosts, and HEAD for GET |
| RoutingMethods.MuxMatchingMethods | server.go:2643-2655 | for the path and for the path with a slash |
| RoutingMethods.AllowedExactly | routing_tree.go:215-225 | on clean paths the methods listed are exactly those of the patterns that match host and path, and HEAD if GET is one |
| RoutingMethods.AllowedAreMatched | server.go:2553-2560 | when a request is not matched because of its method, the methods listed are exactly those with which it would be |
| RoutingIndexes.RoutingIndex.AddPattern | routing_index.go:31-46 | the index files one pattern more |
| RoutingIndexes.RoutingIndex.LeastPopulated | routing_index.go:57-124 | a literal position with the fewest candidates, or none if there is no literal |
| RoutingIndexes.RoutingIndex.FindConflict | routing_index.go:57-124 | a conflicting pattern is found exactly if there is one, although only some candidates are visited |
| RoutingIndexes.ConflictIsFiled | routing_index.go:57-124 | a conflicting pattern has at every literal position the same literal or a wildcard |
| RoutingIndexes.ConflictsAreFiled | routing_index.go:57-124 | so it is filed under one of the two keys that are visited |
| ServeMuxes.ServeMux.RegisterErr | server.go:2761-2778 | a pattern is refused exactly if it conflicts with a registered one; otherwise the panic of a taken leaf is reached exactly if a registered one has the same keys, which needs a reserved key; otherwise tree, index and list hold one more |
| ServeMuxes.ServeMux.FindRoute | routing_tree.go:115-125 | after any registrations the handler found is that of the most specific match |
| ServeMuxes.SameKeyConflicts | routing_tree.go:56-82 | without reserved keys, patterns with the same keys conflict |
| ServeMuxes.KeyTaken | routing_tree.go:76-82 | so the panic of a taken leaf is unreachable without them |
| ServeMuxes.LeafTakenByStar | routing_tree.go:56-82 | two patterns with the same keys, one of them without reserved keys, that do not conflict |
| ServeMuxes.RegisterStar | server.go:2761-2778 | registering one after the other reaches the panic of a taken leaf |
| ServeMuxes.TableGrows | server.go:2761-2777 | registered patterns stay pairwise conflict-free |
| RoutingLimits.ReliableExactlyIfClean | routing_tree.go:34-37 | the tree honours precedence on a path, for every table, exactly if the path has no empty segment and does not end in a star |
| RoutingLimits.ReliableExactlyIfReservedFree | routing_tree.go:34-37 | for every unescape with a right inverse, the tree honours precedence for a pattern on all clean paths exactly if none of its literals is empty or a star |
| RoutingLimits.MisledPath | routing_tree.go:34-37 | the path, escaped with that inverse, on which another pattern is found although it does not match |
| Punycode.Adapt | cookiejar/punycode.go:113-126 | the loop computes the adaptation of the decoder, which is written out in the numbers of section 5 of RFC 3492 |
| Rfc3492.TwoIdeographs | cookiejar/punycode.go:113-126 | the decoder reads `wgv71a` as U+65E5 U+672C |
| Rfc3492.ThreeIdeographs | cookiejar/punycode.go:113-126 | and `wgv71a119e` as U+65E5 U+672C U+8A9E |
| Rfc3492.Cyrillic | cookiejar/punycode.go:113-126 | and `e1afmkfd` as six Cyrillic letters, one of them twice |
| Rfc3492.Umlaut | cookiejar/punycode.go:43-52 | and `bcher-kva`, which has a delimiter, as five basic code points with U+00FC among them |
| Punycode.EncodeDigit | cookiejar/punycode.go:102-110 | a digit below 36 is written so that it reads back; the panic needs a larger one |
| Punycode.AppendDigits | cookiejar/punycode.go:76-90 | the inner loop writes the variable-length integer |
| Punycode.ReadDigits | cookiejar/punycode.go:76-90 | the decoder reads that integer back, whatever follows it |
| Punycode.InsertOne | cookiejar/punycode.go:76-95 | the right delta makes the decoder insert the right code point at the right place |
| Punycode.NextScan | cookiejar/punycode.go:64-97 | a scan that ends leaves the decoder ready for the next code point |
| Punycode.RunAppend | cookiejar/punycode.go:53-98 | decoding can be cut at any delta |
| Punycode.AdvanceInjective | cookiejar/punycode.go:53-98 | the decoder reaches the same output only from the same output by the same delta, so a wrapped delta is never repaired |
| Punycode.TooFar | cookiejar/punycode.go:61-63 | a count that reaches 2^31 belongs to a delta that does |
| Punycode.NextRune | cookiejar/punycode.go:54-59 | the smallest code point still to be written |
| Punycode.Scan | cookiejar/punycode.go:65-95 | one pass over the label keeps the wrapped delta, the decoder of what was written and the right decoder in step |
| Punycode.WriteDeltas | cookiejar/punycode.go:53-98 | the main loop, for every label |
| Punycode.Encode | cookiejar/punycode.go:36-100 | for every label, the decoder of section 6.2 of RFC 3492, which shares no constant and no function with the encoder, gives back the label exactly if no delta of the label, taken without bounds, reaches 2^31; an error means that one does |
| Punycode.ShortLabelsInRange | cookiejar/punycode.go:36-100 | the deltas of every label of up to 1926 code points are in range |
| Punycode.LongLabelOutOfRange | cookiejar/punycode.go:60 | those of a label of 1927 letters and the largest code point are not |
| DataBuffers.DataBuffer.Write | h2_bundle.go:1139-1157 | the bytes are appended to the contents |
| DataBuffers.DataBuffer.Read | h2_bundle.go:1101-1124 | the oldest bytes, as many as fit or as there are, are taken from the contents; the rest of the destination stays |
| DataBuffers.DataBuffer.Len | h2_bundle.go:1134-1136 | the size is that of the contents |
| DataBuffers.DataBuffer.LastChunkOrAlloc | h2_bundle.go:1159-1170 | a chunk with room, new if the last one is full; the contents stay |
| DataBuffers.WasteBounded | h2_bundle.go:1052-1065 | allocated bytes exceed buffered ones by less than two of the largest chunks |
| DataBuffers.TotalUnread | h2_bundle.go:1126-1131 | what is allocated and not buffered is before the read offset and after the write offset |
| Cookies.SanitizeOrWarn | cookie.go:429-449 | exactly the valid bytes are kept |
| Cookies.SanitizeCookieValue | cookie.go:404-413 | values with spaces or commas are quoted |
| Cookies.Request.AddCookie | request.go:457-464 | the header is the old one with the cookie appended |
| Cookies.ParseCookieValue | cookie.go:451-462 | a value is accepted exactly if its bytes are valid without the quotes |
| Cookies.ReadCookies | cookie.go:278-311 | the cookies of all lines in order |
| Cookies.ReadLine | cookie.go:286-308 | the cookies of the parts of one line |
| Cookies.ReadPart | cookie.go:290-307 | the cookie of one part, if it is one |
| Cookies.ReadJoined | cookie.go:278-311 | lines joined by a semicolon read like one after the other |
| Cookies.TrimIrrelevant | cookie.go:278-311 | white space around a line does not matter |
| Cookies.AddThenRead | request.go:457-464 | adding a cookie to any header line adds it to what is read |
| Cookies.CookiesRoundTrip | request.go:457-464 | reading the header gives back any list of cookies with valid names, or those of the name asked for |
| Cookies.AllSelectedAt | cookie.go:278-311 | in order, each value without its invalid bytes |
| WriteQueues.ConsumeExact | h2_bundle.go:10763-10815 | DATA is popped exactly if the limit, both windows and the frame size are positive, and then as many bytes as the least of these and the payload; a split loses, adds and reorders nothing, exactly its bytes are deducted, and END_STREAM and the reply go with the last piece |
| WriteQueues.ConsumeHeadExact | h2_bundle.go:10870-10884 | what is popped and what stays in the queue are together what was there |
| WriteQueues.QueueItemsAppend | h2_bundle.go:10850-10868 | pushing appends to what a queue will send |
| RoundRobins.PopOk | h2_bundle.go:11511-11531 | popping keeps the scheduler in order, finds nothing only if nothing can be sent, serves control frames first, and pops of a stream as much as fits both windows and the frame size, which is what the windows lose |
| RoundRobins.OpenOk | h2_bundle.go:11451-11469 | opening keeps it in order |
| RoundRobins.CloseOk | h2_bundle.go:11471-11488 | closing keeps it in order |
| RoundRobins.PushOk | h2_bundle.go:11492-11509 | pushing keeps it in order |
| RoundRobins.OrderKept | h2_bundle.go:11492-11531 | over every run, what was popped for an open stream is a prefix of what was pushed and the rest is queued; control frames keep their order |
| RoundRobins.TurnComes | h2_bundle.go:11511-11531 | a stream that can send is served by a pop or moves ahead, and nothing else moves it back |
| RoundRobins.ServedInTurn | h2_bundle.go:11511-11531 | without control frames, a stream that stays sendable is passed over less often than there are streams, whatever is opened and closed |
| RoundRobinRings.WriteQueue.ConsumeUpTo | h2_bundle.go:10870-10884 | the head of the queue is taken whole or in part, or nothing |
| RoundRobinRings.RoundRobinScheduler.OpenStream | h2_bundle.go:11451-11469 | linking the queue before the head puts the stream last; it panics exactly if the stream is open already |
| RoundRobinRings.RoundRobinScheduler.CloseStream | h2_bundle.go:11471-11488 | unlinking the queue removes the stream from the order; an unknown stream changes nothing |
| RoundRobinRings.RoundRobinScheduler.PushFrame | h2_bundle.go:11492-11509 | the request goes to the queue of its stream, or to the control queue; it panics exactly for DATA on a stream that is not open |
| RoundRobinRings.RoundRobinScheduler.PopFrame | h2_bundle.go:11511-11531 | the walk around the ring pops what the model pops, and the ring holds the open streams in their new order |
| RoundRobinRings.RoundRobinScheduler.Link | h2_bundle.go:11451-11469 | the ring stays one circular doubly linked list |
| RoundRobinRings.RoundRobinScheduler.Unlink | h2_bundle.go:11471-11488 | so it does when a queue leaves |
| PriorityForests.MoveAcyclic | h2_bundle.go:11008-11041 | a node can move below any node that does not depend on it without a cycle |
| PriorityForests.ReparentOk | h2_bundle.go:11008-11041 | after a move kid lists and parent links agree, and only that node has another parent |
| PriorityForests.AdjustedAcyclic | h2_bundle.go:11214-11283 | making a stream depend on another, exclusively or not, leaves every chain of parents finite |
| PriorityForests.FreedOk | h2_bundle.go:11260-11265 | a parent that depended on the stream is first moved up, and then does not |
| PriorityForests.SoleKid | h2_bundle.go:11270-11281 | an exclusive dependency is the only kid of its parent (section 5.3.3 of RFC 7540) |
| PriorityForests.RemovedOk | h2_bundle.go:11346-11352 | removing a node keeps a forest |
| PriorityForests.RemovalKeepsReach | h2_bundle.go:11346-11352 | the other nodes stay reachable exactly if the removed one has at most one kid |
| PriorityForests.MovingStep | h2_bundle.go:11271-11278 | one round of the loop that moves the other kids of the parent |
| PriorityNodes.PriorityNode.SetParent | h2_bundle.go:11008-11041 | the links in memory become those of the moved forest; it panics exactly if the new parent is the node itself |
| PriorityTrees.PromoteFirst | h2_bundle.go:11346-11349 | the loop of removeNode as written moves the first kid only |
| PriorityTrees.DependsOn | h2_bundle.go:11260-11265 | the walk up the parents ends and finds a dependency exactly if there is one |
| PriorityTrees.AdoptKids | h2_bundle.go:11271-11278 | all kids of the parent but the stream become kids of the stream |
| PriorityTrees.Depend | h2_bundle.go:11253-11282 | together the parents become those of section 5.3.3 of RFC 7540, through the temporary cycle |
| PriorityTrees.AddBytes | h2_bundle.go:11043-11048 | the bytes are added for the node and for exactly the nodes it depends on |
| PrioritySorts.LessExactly | h2_bundle.go:11115-11127 | below the largest weight: nothing sent comes first, the heavier before the lighter, then by bytes sent for the weight |
| PrioritySorts.SameWeight | h2_bundle.go:11115-11127 | siblings of one weight are ordered by the bytes sent |
| PrioritySorts.LargestWeightLast | h2_bundle.go:11115-11127 | before anything is sent the order is that of the weights exactly if both are the largest or neither is |
| PrioritySorts.Sort | h2_bundle.go:11109-11127 | sorting gives a permutation that is in order, pair by pair, unless a weight is the largest or a count negative |
| PrioritySorts.SortKids | h2_bundle.go:11090-11100 | taking the kids out, sorting and putting them back changes nothing but their order, and leaves them sorted |
| PrioritySorts.SortedArranges | h2_bundle.go:11109-11127 | unless a weight is the largest, no kid of the sorted list comes before one that is heavier when neither has sent, or else has sent fewer bytes for its weight |
| PriorityWalks.DifferentWeights | h2_bundle.go:11073-11080 | whether the weights of the kids differ |
| PriorityWalks.Visit | h2_bundle.go:11306-11328 | a frame is taken from a node exactly if its head can be sent, up to the throttle limit, which stays positive in 32 bits |
| PriorityWalks.WalkReady | h2_bundle.go:11056-11107 | the walk takes a frame from a node below n only if no node in between can send, takes none only if no node below n can, and leaves parents and sets of kids as they were; at every node on the way no sibling whose turn is earlier has a node below it that can send, where the turn is that of the list if all weights are the same, and else that of weights and bytes |
| PrioritySchedulers.PriorityScheduler.OpenStream | h2_bundle.go:11158-11187 | a new stream is put below its pusher or the root; an idle one is opened in place; the links stay a forest; it panics exactly if the stream has a node that is not idle |
| PrioritySchedulers.PriorityScheduler.CloseStream | h2_bundle.go:11189-11212 | the stream is kept as closed, and the oldest closed one is removed when there are too many; it panics exactly if the stream has no node or is not open |
| PrioritySchedulers.PriorityScheduler.AdjustStream | h2_bundle.go:11214-11283 | the forest, the index and the weight after a change of priority: unknown old streams are ignored, self-dependencies too, an exclusive stream is its parent's only kid, and a new idle stream first takes its place below the root while the oldest idle one leaves tree and index if there are too many |
| PrioritySchedulers.PriorityScheduler.PushFrame | h2_bundle.go:11285-11303 | the request goes to its node, or to the root; it panics exactly for DATA on a stream without a node |
| PrioritySchedulers.OpenStreamLost | h2_bundle.go:11160-11166 | a stream opened from idle loses its node to other idle streams while it is open, whatever the limits; then closing it panics and so does queueing DATA |
| PriorityIndexes.EveryStory | h2_bundle.go:11158-11344 | over every run of a server the list of idle streams is in order, and every node in the index says what became of its stream |
| PriorityIndexes.KeptExactly | h2_bundle.go:11160-11166 | a stream that is opened keeps its node until it is closed exactly if it was not listed as idle, or fewer idle streams were added since than it takes to push it out of the list |
| PriorityIndexes.LostWhileOpen | h2_bundle.go:11160-11166 | a run in which it does not, for every size of the list |
| PrioritySchedulers.PriorityScheduler.PopFrame | h2_bundle.go:11305-11330 | a frame comes from a node that can send and has no ancestor that can, by way of siblings none of which is passed over in its turn (by the weights, bytes and lists before the call); it is as large as fits both windows, the frame size and the throttle limit; nothing comes only if no node reachable from the root can send |
| PrioritySchedulers.PriorityScheduler.RemoveNode | h2_bundle.go:11346-11352 | the forest and the index without the node |
| PriorityRuns.StreamCutOff | h2_bundle.go:11346-11352 | for any limits, a request that pushes two streams and is closed leaves one of them open, known, and cut off the tree |
| PrioritySchedulers.PriorityScheduler.AddClosedOrIdleNode | h2_bundle.go:11332-11344 | the list grows by the node and loses its oldest when full, which leaves the tree |
| FlowControls.Inflow.Add | h2_bundle.go:1333-1353 | credit is announced or withheld, and what is withheld is zero or both small and less than the window; it panics exactly if the window would exceed 2^31-1 |
| FlowControls.Inflow.Take | h2_bundle.go:1357-1363 | bytes are taken exactly if the window has them |
| FlowControls.TakeInflows | h2_bundle.go:1368-1375 | from both windows or from neither |
| FlowControls.AlwaysBalanced | h2_bundle.go:1322-1363 | over every run the window is what the peer sees, and window plus withheld credit is initial plus credited less taken |
| FlowControls.NoPanicIfCreditedOnce | h2_bundle.go:1333-1353 | crediting no more than was received never reaches the overflow panic |
| FlowControls.ReceiveData | h2_bundle.go:5646-5703 | every outcome of a DATA frame, and what each window gains or loses |
| FlowControls.StaysSettled | h2_bundle.go:5646-5703 | no DATA frame makes withheld connection credit large |
| FlowControls.NeverStalled | h2_bundle.go:1333-1353 | a peer without window is owed nothing |
| ReceiveCredits.NextOk | h2_bundle.go:5506-5512 | receiving, reading, reporting and closing keep announced, withheld and owed connection credit together constant, but for bytes read from a closed stream; a stream window never overflows |
| ReceiveCredits.CreditConserved | h2_bundle.go:6302-6311 | over every run the credit grows by exactly the bytes read from streams that were closed, and only with them can it overflow |
| ReceiveCredits.AllReturned | h2_bundle.go:6302-6311 | when all streams are closed and all reads reported, the connection has its initial credit exactly if nothing was read late |
| ReceiveCredits.LateReadsPanic | h2_bundle.go:1333-1353 | for every size of the windows a run of late reads ends in the overflow panic |
| FlowControls.Outflow.Add | h2_bundle.go:1413-1420 | the test on the wrapped sum accepts exactly the sums that fit in 32 bits |
| FlowControls.Outflow.Available | h2_bundle.go:1393-1399 | the smaller of the two windows |
| FlowControls.Outflow.Take | h2_bundle.go:1401-1409 | both windows lose the bytes; it panics exactly if one of them has fewer |
| FlowControls.AdjustStreams | h2_bundle.go:5585-5611 | a new initial window is accepted exactly if no stream overflows, and then every stream moves by the difference |
| FlowControls.Next | h2_bundle.go:5428-5458 | every event keeps windows equal to credit less bytes sent, the connection window not negative, and stream windows at least the initial one less 2^31-1 |
| FlowControls.RejectedExactly | h2_bundle.go:1413-1420 | in such states an update is refused exactly if the window would exceed 2^31-1 |
| FlowControls.WithinStreamCredit | h2_bundle.go:10763-10815 | a DATA frame is sent only within the credit of its stream and of the connection at that moment |
| FlowControls.NeverOverspent | h2_bundle.go:10763-10815 | over every run without a connection error the bytes sent are at most the initial window and the updates received |
| FlowControls.SpentIsPossible | h2_bundle.go:10763-10815 | what the schedulers pop is such a frame |
| Frames.FrameRoundTrip | h2_bundle.go:1637-1649 | reading a frame that was written gives back its header and contents, whatever follows it |
| Frames.HeaderBack | h2_bundle.go:1743-1777 | the nine bytes of the header read back |
| Frames.HeadersBack | h2_bundle.go:2427-2539 | HEADERS with any flags, padding and priority read back |
| Frames.PushPromiseBack | h2_bundle.go:2701-2792 | PUSH_PROMISE reads back |
| Frames.SettingsBack | h2_bundle.go:2123-2242 | any list of settings reads back |
| Frames.DataBack | h2_bundle.go:2004-2111 | DATA reads back with or without padding |
| Frames.GoAwayBack | h2_bundle.go:2306-2329 | GOAWAY reads back |
| FrameLayouts.Numbers | h2_bundle.go:1431-1494 | the types, flags and codes as the numbers of section 11 of RFC 7540 |
| FrameLayouts.WireBytes | h2_bundle.go:1743-1777 | which bytes are on the wire: the length in the first three, type, flags, the stream ID in the last four of nine, then the payload |
| FrameLayouts.HeaderRead | h2_bundle.go:1637-1649 | any nine bytes are read as these numbers, without the first bit of the stream ID |
| FrameLayouts.FrameRead | h2_bundle.go:1900-1933 | of any bytes as many are taken as the first three say, unless they are too many or have not arrived |
| FrameLayouts.RefusedExactly | h2_bundle.go:2071-2111 | which orders are refused: streams that are none, dependencies that do not fit, padding too long or not zero, increments out of range |
| FrameLayouts.LayoutBytes | h2_bundle.go:2058-2801 | every field of every frame that is written, by index: flags, pad length, dependency, weight, codes, settings, padding |
| FrameLayouts.AnyBody | h2_bundle.go:2004-2745 | what is made of any payload, for each type: the error and its number, or each field by index |
| FrameLayouts.SettingsFrame | h2_bundle.go:2235-2242 | a SETTINGS frame, byte by byte |
| FrameLayouts.AckFrame | h2_bundle.go:2248-2251 | its acknowledgement |
| FrameLayouts.HeadersFrame | h2_bundle.go:2504-2539 | the HEADERS of a request on stream 1 |
| FrameOrders.AcceptsContiguous | h2_bundle.go:1947-1981 | the check of the order accepts exactly the sequences whose header blocks are contiguous on one stream (section 6.10 of RFC 7540) |
| FrameOrders.StreamRoundTrip | h2_bundle.go:1900-1933 | reading what any legal sequence of orders wrote gives the same frames, or the error if blocks are not contiguous |
| FrameOrders.BlockRead | h2_bundle.go:10447-10469 | a header block of any length is split into frames of at most 16384 bytes that are accepted and carry the block, END_HEADERS only on the last |
| FrameOrders.PushRead | h2_bundle.go:1947-1981 | a push block is accepted exactly if it fits one frame |
| FrameOrders.PushFits | h2_bundle.go:2770-2792 | and fits the smallest frame size exactly if it leaves four bytes free |
| Framers.Framer.EndWrite | h2_bundle.go:1757-1777 | a frame that is not too long is sent with its length filled in |
| Framers.Framer.WriteDataPadded | h2_bundle.go:2071-2111 | exactly the frame is sent, or nothing if the stream or the padding is not valid |
| Framers.Framer.WriteHeadersFrame | h2_bundle.go:2504-2539 | the same for HEADERS |
| Framers.Framer.WriteContinuationFrame | h2_bundle.go:2671-2682 | the same for CONTINUATION |
| Framers.Framer.WriteSettingsFrame | h2_bundle.go:2235-2242 | the same for SETTINGS |
| Framers.Framer.WriteHeaderBlock | h2_bundle.go:10447-10469 | the loop sends exactly the frames of the block |
| Framers.Framer.ReadFrame | h2_bundle.go:1900-1933 | the next frame is read and checked, or the error is given |
| Framers.Framer.CheckFrameOrder | h2_bundle.go:1947-1981 | the stream whose block is unfinished is tracked |
| ServerTables.SetStreamOk | h2_bundle.go:5731-5743 | changing a stream keeps the table in order |
| ServerTables.NewClientOk | h2_bundle.go:5960-5994 | a new client stream is a move from idle, within the limit, and is counted |
| ServerTables.NewPushOk | h2_bundle.go:6990-7019 | so is a pushed one |
| ServerTables.RemoveStreamOk | h2_bundle.go:5479-5523 | a closed stream leaves the table and the count |
| ServerTables.DoTable | h2_bundle.go:5073-5294 | every call keeps the table in order and moves every stream forward only |
| ServerTables.OnTable | h2_bundle.go:5299-5407 | so does every frame and message |
| ServerLoops.OneFrameAtATime | h2_bundle.go:5073-5077 | a frame is started only when none is being written, and only a frame being written ends |
| ServerLoops.LoopStep | h2_bundle.go:5194-5233 | the flags of the loop say exactly which frame is in flight, through all calls |
| ServerLoops.LoopOn | h2_bundle.go:5299-5407 | so they do after every event |
| ServerOutputs.EnqueueOk | h2_bundle.go:5009-5068 | a frame that is not ignored has a queue, and control frames are counted |
| ServerOutputs.DequeueOk | h2_bundle.go:5194-5233 | a frame that is popped leaves the count exact, and frames of streams come only when there are no control frames |
| ServerSteps.CoreStep | h2_bundle.go:5009-5294 | every call keeps the table, the scheduler and the calls in order |
| ServerSteps.CoreOn | h2_bundle.go:5299-5407 | so does every event |
| ServerGoAways.StepGoing | h2_bundle.go:5269-5281 | a connection going away stays so, keeps its error, and gets no client stream |
| ServerGoAways.OnGoing | h2_bundle.go:5371-5380 | frames for new streams are discarded, so no event creates one either |
| ServerGoAways.GoingStep | h2_bundle.go:5201-5210 | the GOAWAY written covers every client stream there ever was |
| ServerSafety.DoResets | h2_bundle.go:5130-5182 | a half-closed (local) stream always has its RST_STREAM queued, in flight or next |
| ServerEnds.EmptyExactly | h2_bundle.go:11511-11531 | nothing is popped exactly if there is no control frame and no stream can send |
| ServerEnds.QuietStep | h2_bundle.go:5194-5233 | between events whatever can be written is being written |
| ServerEnds.CalmStep | h2_bundle.go:5646-5708 | the window updates of a DATA frame end no stream |
| ServerEnds.EndStep | h2_bundle.go:5705-5743 | a request ends only while its stream is open |
| ServerPendings.PendingStep | h2_bundle.go:5479-5523 | every stream that has left the table has the call pending that tells the scheduler, and outside the loop only one stream at a time is being closed |
| ServerTheorems.StepPanics | h2_bundle.go:5073-5182 | in every state a run can reach, the only panics a step can reach are a frame on a closed stream and a second close; two frames at once, a frame on a half-closed (local) stream, a write that was not started, a missing stream, a late end of a request and DATA without a queue are unreachable |
| ServerTheorems.StepInv | h2_bundle.go:5009-5294 | every step keeps the whole invariant, or ends in one of the two panics and leaves table, queues and GOAWAY as they were |
| ServerTheorems.OnSound | h2_bundle.go:5299-5407 | every event keeps it (what an event does is `ServerAnswers.OnAnswered`) |
| ServerTheorems.EveryState | h2_bundle.go:4521-4543 | in every state of every run: streams open or half-closed with IDs that were seen, exact counters, the limit of client streams, the exact count of control frames, a GOAWAY that covers all client streams, and no panic but the two |
| ServerTheorems.RunForward | h2_bundle.go:4521-4543 | over every run every stream only moves from idle to open to half-closed to closed |
| ServerTheorems.RunGoing | h2_bundle.go:5269-5281 | over every run a connection going away gets no client stream and keeps its error |
| ServerAnswers.OnAnswered | h2_bundle.go:5299-5900 | for every message: which errors it is, with their numbers, which streams it opens, ends, resets or closes, which windows it moves and by how much, what is acknowledged or returned, and nothing else; conditions are on the frame, the table and the windows alone |
| ServerAnswers.SettingsApplied | h2_bundle.go:5525-5611 | settings are applied in order up to the first that is wrong, which gives the code; otherwise each has its value and every stream window moves by the difference of the initial ones |
| ServerLedgers.StepDue | h2_bundle.go:5009-5294 | every step keeps the balance of what is owed: what a call asks for comes to be done, once |
| ServerLedgers.StepBalance | h2_bundle.go:10763-10815 | every step takes from the windows exactly the DATA it starts |
| ServerLedgers.StepError | h2_bundle.go:5269-5281 | no step adds an error or forgets one |
| ServerBooks.WindowsHold | h2_bundle.go:5428-5458 | over every run the connection window is 65535 plus the increments accepted on stream 0 less the DATA started; without a connection error the window of each stream is the initial window announced last plus the increments accepted on it less the DATA started on it, and the frame size is the one announced last |
| ServerBooks.PeerHolds | h2_bundle.go:5553-5583 | so are the limit of pushed streams and whether there are pushes |
| ServerBooks.AllDone | h2_bundle.go:5299-5407 | over every run everything that messages ask for is done exactly once or still to come; between messages only answers in the queue are |
| ServerBooks.PingsAnswered | h2_bundle.go:5409-5426 | the PINGs accepted are as many as the acknowledgements started and queued |
| ServerBooks.SettingsAcknowledged | h2_bundle.go:5525-5551 | an acknowledgement is due exactly from accepted SETTINGS until one is started; while it is due, a frame is being written after which the loop goes on |
| ServerBooks.FirstErrorWins | h2_bundle.go:5299-5350 | over every run the connection ends with the code of the first message that is a connection error, and with none if there is none |
| ServerDrains.StepCloser | h2_bundle.go:5194-5233 | every call takes free bytes of the write buffer, or sends a frame off, or uses up a push, or leaves less to do |
| ServerDrains.Drain | h2_bundle.go:5194-5233 | so all calls between two messages come to an end, however announcements are decided |
| ServerLines.ArrivesLe | h2_bundle.go:5105-5123 | more free bytes in the write buffer never keep a frame from being reached |
| ServerReaches.ReachStep | h2_bundle.go:5194-5233 | whether the loop will take a frame of a stream that is being closed is told by the frames ahead alone: no step brings it closer, and with the least announced none takes it further away |
| ServerPanics.StepSafe | h2_bundle.go:5009-5294 | a step that does not close an exposed stream, nor report the reset of a panicked handler for a closed one, reaches no panic and keeps everything |
| ServerPanics.NoPanic | h2_bundle.go:5073-5182 | a run of such steps reaches no panic |
| ServerPanics.InitialSafe | h2_bundle.go:4521-4543 | a new connection is in such a state |
| ServerPanics.QuietClose | h2_bundle.go:5460-5477 | a close is never exposed when nothing is left that wakes the loop |
| ServerPanics.ResetIsSafe | h2_bundle.go:5460-5477 | so a RST_STREAM from the client never leads to a panic, blocked queue and unread body or not |
| ServerPanics.ReachPanics | h2_bundle.go:5506-5522 | when the frames ahead of a closing stream are written in place and leave its head sendable, the frame on a closed stream is started |
| ServerPanics.PanicsExactly | h2_bundle.go:5130-5182 | between two messages the server can panic exactly if the message reports a frame written by another goroutine that closes a stream, and the stream is closed already, or the frames ahead of it fit the write buffer and leave its head sendable |
| ServerPanics.PanicsExactlyBy | h2_bundle.go:5506-5522 | the same for every choice at the close: something must be announced and no GOAWAY come first |
| ServerCredits.PanicsByCredit | h2_bundle.go:5506-5512 | the same by the receive window and the unread bytes: something is announced exactly if they are as much as a refresh or as the peer has left |
| ServerUnsafeRuns.ClosedStreamReached | h2_bundle.go:5506-5522 | a run of a new connection that starts a frame on a closed stream |
| ServerCredits.AmountsOfTheRun | h2_bundle.go:1333-1353 | in the run to the panic the windows let out just what is announced |
| ServerUnsafeRuns.ClosedTwiceReached | h2_bundle.go:5173-5174 | a run of a new connection that closes a stream twice |
| ServerPriorities.PriorityPanicReached | h2_bundle.go:11193-11195 | for every size of the list, a run of a new connection makes scheduler calls that end in closing an open stream without a node |

## Left out

- `queuePool` and `http2dataChunkPools`: reused queues and chunks are fresh ones in the model, so aliasing through the pools is not captured.
- Mappings.Mapping.Add: requires a new key, as the type demands of its callers (mapping.go:7); `addChild` looks the key up first, and `RoutingNodes.RoutingNode.AddChild` proves it.
- Punycode.Encode: an error is shown to be due to a delta for labels of fewer than 2^31 code points, which the 32-bit counts of the code assume.
- ServeMuxes.ServeMux.FindRoute: stated for paths without empty segments that do not end in a star and for tables without reserved literals; `RoutingLimits` proves that this is exactly where the tree is reliable.
- ServeMuxes.ServeMux.RegisterErr: takes the parsed pattern; `parsePattern`, which is not part of this model, builds well-formed ones.
- RoutingLimits.DifferenceReads: assumes that literals and names are read as they are written, because `differencePath` does not escape what it writes.
- RoutingMethods.MuxMatchingMethods: the methods are a set; that the code sorts them is not modelled.
- `exactMatch` and trailing-slash redirection: they only read the tree and would add easy members.
- PriorityTrees.AddBytes: `subtreeBytes` is not the sum over the subtree after nodes move, because `setParent` does not move it; no such claim is made.
- PrioritySorts.Sort: `sort.Sort` is the insertion sort it uses for few elements, and quotients are exact instead of rounded.
- FlowControls.AdjustStreams: when a window overflows some streams have been adjusted and others not; the connection ends with an error, and no claim is made about the windows after it.
- ServerBooks.WindowsHold: for the same reason stream windows are given only until there is a connection error; that of the connection is given always.
- ReceiveCredits.NextOk: a report may come for any part of the bytes that were read, and expired read deadlines are events that may come at any time.
- In the step machine how much is announced in a window update, how much of a frame has left the write buffer and the compressed size of a 100-continue header are free choices; the receive windows themselves are in `FlowControl` and `ReceiveCredit`. `upgradeRequest`, timers and deadlines, request parsing and handler scheduling are not part of it, and the priority scheduler is not used in it: only the calls it would get are (`ServerPriorities.Calls`). `closeAllStreamsOnConnClose` (h2_bundle.go:4710-4716), which closes every stream when the connection ends, is not an event of it.
- The write methods for PING, PRIORITY, RST_STREAM, GOAWAY, WINDOW_UPDATE, PUSH_PROMISE and raw frames are modelled by what they lay out (`Frames.Layout`), not as methods of the framer; HPACK and `readMetaFrame` treat header blocks as opaque bytes.
- The HTTP/2 client, HTTP/1 server and transport, TLS, file server, content sniffing and the cookie jar beyond its encoder.
