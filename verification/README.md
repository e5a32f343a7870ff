# Poor Man's Bus, modelled and proved

The bus connects a person's machines. Each program holds a connection to a broker and a list of
32-character keys. Messages are JSON, sealed once per key with AES in CFB mode. The broker relays
every message of a realm to every client of that realm. Introducers serve requests (copy to the
clipboard, open a URL, show a notice, confirm a key). Among them a small protocol elects who is
active: an introducer that hears of a strictly higher level steps down, and comes back after
30 idle seconds or after a reconnection.

The model has two layers for sealed messages. `Envelope`, `Cfb`, `Base64Url`, `KeyScan` and
`Normalise` work on the bytes. `Wire` is symbolic: a body opens only with the key it was sealed
with. Both layers prove the same delivery law (`Envelope.DeliveredOncePerSharedKey` and
`Wire.HeardOncePerSharedEntry`). Everything that is about many programs at once is built on `Wire`.

| file | what it holds |
|---|---|
| `Wire`, `Introducer`, `Clients`, `Bus` | messages, the programs as automata, and every step the whole system can take: join, publish, receive, time out, disconnect, lose a message to a dead socket's writer, reconnect, leave |
| `Programs` | the loops of the programs over a connection object, proved equal to the automata |
| `Answers`, `Outcomes`, `Tally` | which inputs call for each message and deed of an introducer, and how a client's run ends, without following either step by step |
| `Election`, `Coverage`, `Robbery` | the election's safety in every reachable state; exactly which outages spoil it; one concrete run that does |
| `Convergence`, `Drain` | that every delivery order ends, and with exactly the right introducers active |
| `Fate`, `Healing` | who will be active in the end, read off the messages under way; recovery from departures, from beginning to end |
| `Provenance`, `Promises` | what every message on the bus is evidence of; what an accepted key, a finished copy and a trigger mean |
| `Cfb`, `Base64Url`, `Envelope`, `Ascii` | encrypt, decrypt, prepareMessage and parseMessage on arrays and bytes |
| `KeyScan`, `Normalise` | the key scanner; the broker's newline and white-space step |
| `Fanout`, `Broker`, `Hub`, `Realms` | one broker's run as a value; the broker, its clients and the manager as objects; the manager and the brokers as concurrent steps; all of it together, with every message and queue |
| `Notify` | the acknowledge-or-push agent and the debouncing agent |

## Where the code does not do what it is for

Each of these is proved with a concrete run, next to the exact condition under which the code is right.

- **A dead socket's writer can decide the election.** `processSocket` returns when the reader ends,
  but the writer goroutine may go on and take messages that were sent after the reconnection
  (api/ws.go:118-160). `Robbery.RobberyDefeatsTheElection` is a run in which everyone is connected
  and silent and a lower introducer stays active. `Coverage.CoveredExactlyWhenNeverHarmful` says
  exactly which such thefts matter.
- **The ticker can retire a broker that has just been given a client.** The hand-off and the map
  insertion happen in two goroutines (broker.go:56, broker.go:191, broker.go:197).
  `Hub.RashTickSplitsTheRealm` is the run, `Hub.QuietExactlyWhenNeverRash` the condition.
- **An acknowledgement can stop the mobile agent for good**, in two ways: it comes just after the
  waiter's timer (`Unack.LateAcknowledgementWedges`), or it comes in time and the timer still wins
  the waiter's select (`Unack.TimelyAcknowledgementWedges`). `Unack.WedgedExactlyWhenSomeStepWedges`
  says that these are the only ways.
- **A notification that nobody displayed can look acknowledged**, if its id is used again:
  `Unack.DuplicateLooksAcknowledged`. `Unack.WokenExactlyByOrphaning` says exactly which reapings
  cause it; using an id again after its first notification was reaped is safe.

Two introducers of the same level both stay active, since the test is a strict comparison. The
results therefore speak of the *topmost* introducers: those that no running introducer with a
common key outranks.

## Model

| member | source | states |
|---|---|---|
| Election.AlwaysCorrected | introducer.go:105-134 | In every reachable state, whatever joins, outages, timeouts and departures came before: if an introducer is active although a running one with a common key is higher, its roll call or the other's Present is on the way, or one of the two is cut off (disconnected, still to handle a reconnection, or robbed by an old writer since). |
| Election.ApplyKeepsCorrected | introducer.go:111-134 | That property is inductive: every step of every program keeps it. |
| Election.AskerActs | introducer.go:111-134 | The one way a lower active introducer stops asking is to publish its roll call. |
| Election.AnswererActs | introducer.go:111-134 | The one way a running introducer stops answering is to publish its Present. |
| Election.PublishedIsHeard | api/ws.go:99-165 | A published message reaches every connected running introducer with a common key as something it acts on. |
| Election.OnlyTopmostActive | introducer.go:120-134 | With everyone connected, unrobbed and silent, an active introducer is topmost. |
| Coverage.CoveredUnlessHarmful | api/ws.go:118-160 | One step keeps the stricter property (robberies not excused) if and only if it is not a theft of the last correction of some pair. |
| Coverage.CoveredExactlyWhenNeverHarmful | api/ws.go:99-165 | Over a whole run the stricter property holds in every state on the way if and only if no theft on the way was harmful. |
| Coverage.TheftAndPair | api/ws.go:123-146 | A theft leaves one pair uncovered exactly when it takes the pair's last correction and what the old writer got written does not deliver it. |
| Coverage.SettledExactly | introducer.go:120-134 | When all are connected and silent, the stricter property says exactly that only topmost introducers are active. |
| Fate.FateIsFixed | introducer.go:120-134 | Call a wrongly active introducer doomed if nothing under way leads to a higher Present for it: none in its inbox, none about to be published, and no roll call or reconnection under way that would draw one from an introducer above it. No delivery step dooms an introducer or saves a doomed one. |
| Fate.ElectsExactlyUnlessDoomed | introducer.go:105-134 | If nobody ever left and all are connected: every order of deliveries that runs to the end elects exactly the topmost introducers if nobody is doomed at its start, and no order does if somebody is. |
| Fate.ElectsWithoutHarm | introducer.go:105-134 | If nobody ever left, all are connected, and no theft in the run so far was harmful, every order of deliveries that runs to the end elects exactly the topmost introducers. |
| Coverage.WrongEndWasHarmful | api/ws.go:118-160 | A run that settles on a wrongly active introducer contains a harmful theft. |
| Coverage.HarmfulTheftsHappen | api/ws.go:118-160 | Such runs exist. |
| Robbery.RobberyDefeatsTheElection | api/ws.go:99-165 | A concrete run after which two introducers with one key are connected and silent, and the lower one is active. |
| Convergence.TopmostAlwaysActive | introducer.go:106-134 | In any run without departures, every topmost introducer is active in every state. |
| Convergence.TopmostStaysActive | introducer.go:121-126 | No step of such a run makes a topmost introducer step down. |
| Convergence.ApplyKeepsFresh | introducer.go:97-134 | Unless an introducer leaves, no Present comes to be in flight for one that is gone. |
| Convergence.TopmostEndsActive | introducer.go:112-119 | In a run without departures, from an accounted state without stale Presents: who ends topmost ends active, if it was active, or joined on the way, or its timer fired at least once. |
| Convergence.TimeoutsHealDepartures | introducer.go:112-134 | After departures: from a state without stale Presents, once the timer of every running inactive introducer has fired, in any order and with anything else in between except departures, and things have settled, exactly the topmost survivors are active. |
| Healing.DeparturesHeal | introducer.go:105-134 | From beginning to end: after any run with departures, outages and thefts that were not harmful (or are mended by now), and with everyone left connected, deliver everything in any order, let the timer of every inactive introducer fire in any order, and deliver everything in any order; then exactly the topmost of those left are active. |
| Healing.TimeoutsHealWithoutHarm | introducer.go:112-134 | The same with joins, outages and harmless thefts in between, where no Present of the departed is under way and things have settled. |
| Drain.DeliveryLowers | introducer.go:120-134 | Every publish and every receive lowers a weighted measure in which a roll call pays for the Presents it spawns and a reconnection for both. |
| Drain.EveryDeliveryOrderEnds | introducer.go:97-134 | From every state, every order of publishing and receiving ends, within that measure. |
| Drain.DrainFrom | introducer.go:97-134 | From every state some order of deliveries reaches a state where none is left. |
| Drain.DeliveryElects | introducer.go:105-134 | If nobody ever left and all are connected and unrobbed, every order of deliveries that runs to the end leaves exactly the topmost introducers active. |
| Drain.DrainedAfterIsFresh | introducer.go:120-134 | Delivering to the end also clears every stale Present of the departed. |
| Programs.ServeRequest | introducer.go:135-194 | What an active introducer sends, does and shows for each request is what the automaton says, after what came before. |
| Programs.RunIntroducer | introducer.go:97-194 | The loop's flag, everything it sent and everything it did (clipboard, browser, notices), after any inputs, are the automaton's run on those inputs after the opening announcement and roll call. |
| Programs.FlagMeans | introducer.go:106-134 | After any inputs the flag is down exactly when a higher introducer was heard with no timeout or reconnection since, whatever else came in between (or it began down and nothing restored it). |
| Answers.AnswersMatchRequests | introducer.go:105-194 | Over any run, every message with given fields goes out exactly as often as the inputs called for it: a Present for each roll call and reconnection; a roll call for each reconnection and each timeout while inactive; and, while active, AuthValid, DataCopied, URLOpened (if the URL opened) and NotificationDisplayed (with the request's id, text and level and the screen saver's state) for each request of that client; nothing else. |
| Answers.AnswersInOrder | introducer.go:111-194 | Answers and deeds come in the order of the inputs that called for them. |
| Answers.DeedsMatchRequests | introducer.go:135-194 | Over any run, every deed with given fields is done exactly as often as an active introducer was asked for it: the clipboard set to the data or to the keys, the URL opened as text or HTML, the notification displayed, and each notice shown with its text, sticky exactly from the configured level on. |
| Introducer.CopiedKeysScanBack | introducer.go:172-174 | What an active introducer puts on the clipboard for RequestAuth scans back to exactly its keys. |
| Programs.TestAuthLoop | api/pmb.go:288-306 | One TestAuth is sent; the wait ends at the first AuthValid for this connection or the timer, whichever is first, and everything after it is left unread. |
| Programs.SendNotification | api/pmb.go:162-185 | One notification is sent; the wait ends at the first display report for this connection or the timer, and everything after it is left unread. |
| Programs.RunRemoteCopy | remotecopy.go:59-81 | The loop is the automaton of a copying client. |
| Outcomes.CopyEnds | remotecopy.go:67-77 | A remote copy succeeds if its confirmation comes before its timer and fails if the timer comes first; either way it sends and does nothing more. |
| Programs.SendTrigger | run.go:112-131 | The last stretch of a run command is the automaton's. |
| Programs.RunCommand | run.go:91-131 | From the start of the command on, a run command is the automaton. |
| Programs.RunRun | run.go:48-132 | The whole run command is the automaton, trigger wait, failure test and all notifications included. |
| Outcomes.StartsExactly | run.go:50-100 | The command is started once and finished once, with its outcome, if there is no trigger to wait for, or a trigger of that name came, the display after it ended, and it was a success or always is set; otherwise never. |
| Outcomes.TriggersExactly | run.go:112-128 | A run command that reaches its end has sent its trigger exactly once, with the command's outcome; no other trigger goes out, nor any before the end. |
| Outcomes.RunEnds | run.go:48-132 | A command that may start sends, in this order, the notification of its trigger, its report, the announcement of its trigger and its trigger, as far as the displays that end carry it, and reaches its end after one of them, or two if it has a trigger to send. |
| Outcomes.RunDoesNotStart | run.go:50-78 | A command that may not start does nothing, does not reach its end, and sends the notification of its trigger exactly if the trigger came. |
| Outcomes.TriggeredEnds | run.go:69-78 | After its trigger a run command waits for a display; if the trigger reports failure and always is not set, it then fails and sends nothing more. |
| Programs.RunClient | api/pmb.go:223-238 | A client given a key is the automaton: it checks the key unless told to trust it, and only then begins its task. |
| Outcomes.CheckEnds | api/pmb.go:294-305 | The key check passes, and the task begins with the inputs after it, if AuthValid for this client comes before the timer; it fails if the timer comes first, and nothing more is sent. |
| Programs.ConnectWithKey | api/pmb.go:223-238 | A key string with no key in it is refused; otherwise the connection has exactly the keys scanned from it and the client over it is the automaton. |
| Programs.PhaseWaits | api/pmb.go:295-305 | A client that ignores everything but some inputs behaves as if it skipped straight to the first of them. |
| Provenance.ApplyKeepsAccounted | introducer.go:135-194 | In every state each AuthValid, DataCopied, URLOpened, NotificationDisplayed and Trigger in flight has the deed it reports in the log already, done by its sender; each Present carries its sender's own level; each sealed body was sealed with a key of its sender. |
| Provenance.IntroReacts | introducer.go:135-194 | An introducer's replies report what it has just done, for the program that asked. |
| Provenance.ClientAdvances | run.go:50-78 | A client moves on only with what entitles it to in the log. |
| Provenance.StartIsBacked | run.go:75-91 | A command that waits on a trigger without trigger-always starts only after a process that sends that trigger finished successfully. |
| Promises.AcceptedKeyIsHeld | api/pmb.go:223-238 | If a client that checks its key got past the check, there is a step of the run at which an introducer, active in the state just before, took that client's TestAuth; and the two share a key. |
| Promises.CopiedMeansCopied | remotecopy.go:59-81 | If a remote copy reports success, there is a step of the run at which an introducer, active in the state just before, took that client's CopyData with exactly its data and set the clipboard to it; and the two share a key. |
| Promises.ReportedMeansDisplayed | api/pmb.go:162-185 | If a client waiting for its notification to be displayed moves on by a message and not by the timer, a notification of its own was displayed: at a step of the run an introducer, active in the state just before, took it; and the two share a key. |
| Promises.LoggedWasDone | introducer.go:135-194 | Whatever request the log says was served was served at some step by an introducer that was active there. |
| Promises.ChainRunsInOrder | run.go:50-129 | In a chain of commands, each waiting on a trigger that only its predecessor sends, command k starts only after every earlier one started and then finished successfully, one after the other. |
| Promises.FailureStopsTheChain | run.go:75-77 | After a command of the chain fails, no later one ever starts. |
| Promises.OneOutcome | run.go:91-100 | A command that finished successfully never also fails. |
| Wire.HeardOncePerSharedEntry | api/util.go:95-191 | A message is heard once per key entry that the receiver shares; in the clear only RequestAuth is heard; and never by its sender. |
| CipherFeedback.SealUnseal | api/util.go:33-55 | Sealing and unsealing undo each other, both ways, for every ciphertext-fed keystream and every length. |
| CipherFeedback.XorIsBitwise | api/util.go:33-55 | Every bit of the sum of two bytes is the sum of their bits, and it is the only byte of which this holds. |
| CipherFeedback.PlainUnique | api/util.go:54-55 | The plaintext that a ciphertext stands for is unique, and unsealing computes it. |
| CipherFeedback.CipherUnique | api/util.go:33-34 | The ciphertext of a plaintext is unique. |
| CipherFeedback.SealEncrypts | api/util.go:33-34 | Every ciphertext byte is the plaintext byte xor the keystream byte that the ciphertext before it determines. |
| Cfb.FedIsPreviousBlock | api/util.go:33-34 | The stream's register, overwritten byte by byte, holds the previous ciphertext block (the IV at first) whenever a block is encrypted. |
| Cfb.KeyByteInBlocks | api/util.go:33-34 | The keystream in the standard's terms: byte r of block n is byte r of the encryption of ciphertext block n - 1, or of the IV for the first. |
| Cfb.StreamByte | api/util.go:33-55 | One byte through the stream is the byte xor the CFB keystream byte, and leaves the stream ready for the next. |
| Cfb.XorKeyStream | api/util.go:33-55 | Between arrays, or in place on one, the given stretch becomes its encryption or decryption, partial last block included, and the rest of the array stays. |
| Base64Url.DecodeEncode | api/util.go:36-41 | Decoding undoes encoding for every byte string and every padding case. |
| Base64Url.DecodeWrapped | api/util.go:41 | And it does so however the encoded text was broken into lines. |
| Base64Url.EncodeIsStandard | api/util.go:36 | Each three bytes, as one number of 24 bits, are spelled by four characters, six bits each from the highest on; a last group of one or two bytes is padded (section 5 of RFC 4648). |
| Base64Url.EncodeLength | api/util.go:36 | There are four characters for every three bytes or part of three. |
| Base64Url.DigitsAreStandard | api/util.go:36 | The characters are those of the standard's alphabet, in its order, and no other byte is taken for one. |
| Base64Url.MalformedTailIsCut | api/util.go:41 | What was decoded before the first malformed group is kept. |
| Base64Url.EncodeAlphabet | api/util.go:36 | Only base64url digits and padding come out, a digit first. |
| Envelope.Encrypt | api/util.go:19-37 | The buffer of IV and ciphertext, filled in place, is base64url of the CFB encryption; exactly keys of 16, 24 and 32 bytes are taken. |
| Envelope.Decrypt | api/util.go:40-58 | Decrypting in place gives the CFB decryption; a key of the wrong length or too short a text is refused. |
| Envelope.DecryptEncrypt | api/util.go:19-58 | Decrypting undoes encrypting for every usable key, IV and text, and any block function. |
| Envelope.EncryptedBit | api/util.go:27-36 | Under the base64url are the IV and one byte for each byte of the text; each bit is that of the text, flipped exactly if the block cipher under this key has a one there for the 16 bytes sent before the block. |
| Envelope.PrepareMessage | api/util.go:82-119 | The message gets the sender's id, host name, address and time and keeps every other field; the bodies are one for each usable key in order, or the clear text if there are no keys. |
| Envelope.BodiesSnoc | api/util.go:98-107 | Each further key adds its body at the end, or nothing if it is unusable. |
| Envelope.ParseMessage | api/util.go:121-191 | The key loop finds the first key that opens the body to JSON; what is queued, dropped or panics is as specified, and what was queued before stays. |
| Envelope.ParsedExactly | api/util.go:121-191 | A message is delivered if and only if the first key that opens the body reads it, or it is a RequestAuth in the clear, and it has a sender other than the receiver; it panics if and only if the body is empty or what was read is no object or lacks a needed field. |
| Envelope.FirstReadIsFirst | api/util.go:130-153 | What is read is what the first key in the list that opens the body reads. |
| Envelope.FirstReadFinds | api/util.go:130-153 | If one key alone opens a body, a receiver reads it exactly if it holds that key, wherever in its list. |
| Envelope.DeliveredOncePerSharedKey | api/util.go:82-191 | All bodies of a message, fed to a receiver, deliver it exactly once per usable entry of the sender's keys that the receiver holds; without keys only if it is RequestAuth; never to the same id. |
| Envelope.EncryptedShape | api/util.go:36-125 | An encrypted body never starts with a brace and passes the broker unchanged. |
| Envelope.PreparedPassesTheBroker | broker.go:111 | Every body prepareMessage makes passes the broker's normalisation unchanged, and starts with a brace exactly when there are no keys, so the receiver takes the matching branch. |
| Normalise.NormalKeepsTheMiddle | broker.go:111 | The broker keeps one stretch of the message, cuts only whole white-space characters on both sides, and cuts all it can. |
| Normalise.NormalFixpoint | broker.go:111 | The broker leaves a message unchanged exactly when it has no newline and no white space at either end. |
| Normalise.KeptByteForByte | broker.go:111 | What is kept is kept byte for byte, except that each newline has become a space. |
| Normalise.SpacesAreWhite | broker.go:111 | What is trimmed is exactly the UTF-8 of Unicode's white-space characters. |
| Normalise.NormalIdempotent | broker.go:111 | Normalising twice is normalising once, on all byte strings. |
| KeyScan.MatchesExactly | api/pmb.go:275-277 | The scan's result is the one list of leftmost non-overlapping matches with no match left in any gap. |
| KeyScan.ParseJoin | api/pmb.go:275-286 | Scanning keys joined with commas gives the same keys back. |
| KeyScan.ParseJoinParse | api/pmb.go:107 | Whatever was scanned, the keys found survive being joined and scanned again. |
| KeyScan.GenerateRandomString | api/pmb.go:149-156 | Every character is a key character, the one picked; a string of 32 scans to itself alone. |
| KeyScan.KeyCharsAreCharacters | api/pmb.go:137-276 | The scanner's pattern takes exactly the characters that keys are made of. |
| Fanout.QueuesAreStretches | broker.go:49-73 | Over a whole run, what was put on a client's queue is exactly the broadcasts from the operation that added it to the one operation that dropped it, which is its removal or the first broadcast to find 256 messages waiting, or to the end of the run if there is none; at most 256 wait; the queue is closed once if it was dropped and never otherwise. |
| Fanout.DroppedExactly | broker.go:57-69 | One operation ends a client's stretch if and only if it removes the client, or broadcasts while exactly 256 messages wait for it; and the stretch ends there. |
| Fanout.StepKeepsOk | broker.go:54-72 | Adding, removing, broadcasting and draining keep this for every client. |
| Fanout.LogIsWhatWasSent | broker.go:62-63 | The broker's log is exactly the broadcasts in order, whatever comes in between. |
| Fanout.ClosedQueueDrains | broker.go:124-137 | What was queued can still be taken to the end, closed or not. |
| Broker.Client.Offered | broker.go:64-69 | The non-blocking send queues the message, or closes the full queue. |
| Broker.Client.NextWrite | broker.go:124-141 | The writer takes the queue's head and writes it, or ends if the socket takes no more; it sees the close only after the queue is empty. |
| Broker.Broker.Add | broker.go:55-56 | The client joins the map, and the broker's whole view changes by just that. |
| Broker.Broker.Remove | broker.go:57-61 | A client in the map is dropped and its queue closed; one already dropped is left alone, so no queue is closed twice. |
| Broker.Broker.OfferAll | broker.go:63-71 | In whatever order the clients are visited, and though they are deleted meanwhile, each gets exactly one offer, and the map holds exactly those with an open queue. |
| Broker.Broker.Broadcast | broker.go:62-71 | A broadcast is one step of the value model, so nothing is sent on a closed queue. |
| Broker.Broker.Read | broker.go:103-114 | What a client wrote is normalised and broadcast to everyone. |
| Broker.Manager.Accept | broker.go:178-192 | The client ends up with its realm's broker, made if there was none, and every other registered broker is as before. Each realm keeps a broker of its own that knows clients of that realm only. |
| Broker.Manager.Tick | broker.go:193-202 | Exactly the brokers found without clients are stopped and forgotten. |
| Hub.ApplyKeepsTidy | broker.go:166-206 | The registered brokers are exactly the running ones, one per realm, and a client is only ever with the broker of its realm that it was sent to. |
| Hub.QuietUnlessRash | broker.go:193-202 | A step leaves retired brokers without clients if and only if it is not a tick while a client handed to an empty broker is not in its map yet. |
| Hub.TickRetiresExactly | broker.go:195-202 | A tick stops exactly the running brokers without clients, and forgets exactly those. |
| Hub.LastOneOut | broker.go:57-61 | A broker is retired by the next tick after its last client has left, and not while one is left. |
| Hub.QuietExactlyWhenNeverRash | broker.go:183-202 | Over a whole run, retired brokers have no clients and gain none in every state if and only if no tick was rash. |
| Hub.RealmsAreSeparate | broker.go:183-191 | In every reachable state, whoever is with the broker of a client is in that client's realm. |
| Realms.ApplyKeepsGood | broker.go:49-209 | Manager, brokers and queues together: every step keeps the maps, the queues and the logs in agreement, and keeps everyone that a broker ever held or heard one that was sent to it. |
| Realms.QueuesHoldTheirRealm | broker.go:62-71 | In every run, rash ticks and evictions included, every message ever put on a client's queue was said in that client's own realm. |
| Realms.SaidToExactlyTheRealm | broker.go:62-191 | After any run without a rash tick, what a client in a map says is put at the end of the queue of every client of its realm, wherever that one is, except that a client for which 256 messages wait is dropped; and no queue of another realm changes. |
| Hub.OneBrokerPerRealm | broker.go:183-202 | Without a rash tick, all clients of a realm are with one broker, and it is running. |
| Hub.RashTickSplitsTheRealm | broker.go:183-202 | A concrete run with a rash tick that leaves two clients of one realm on two brokers, one of them stopped. |
| Unack.ApplyKeepsSound | notify_mobile.go:66-109 | Every step keeps: registered channels are open and their waiter's own, none is closed twice, the agent sends only on an open one, and the logs of pushed and acknowledged waiters are exactly those that ended so. |
| Unack.RegisteredExactly | notify_mobile.go:93-104 | In every run, a channel is registered under an id exactly if some waiter was started for it and none of its waiters has been reaped since; and it is the channel of the last one started. |
| Unack.ClosedExactly | notify_mobile.go:100-104 | In every run, a waiter's channel has been closed, once, exactly if a waiter of its id was reaped since it was started, with none started in between. |
| Unack.EndsOnceOneWay | notify_mobile.go:66-78 | In every run, duplicate ids included, a waiter ends at most once, acknowledged or pushed but not both, its channel is closed at most once, and nothing is sent on a closed one. |
| Unack.AcknowledgedIsNotPushed | notify_mobile.go:69-76 | With distinct ids no channel is closed under a waiter, and a notification whose acknowledgement got through is never pushed. |
| Unack.WokenNeedsDuplicate | notify_mobile.go:100-104 | A waiter that can be woken by a close shares its id with another one, already reaped. |
| Unack.OrphanedExactly | notify_mobile.go:100-104 | A step leaves a waiter waiting on a closed channel if and only if it reaps one waiter while its id is registered to another that still waits. |
| Unack.WokenExactlyByOrphaning | notify_mobile.go:66-109 | Over every run, no waiter ever waits on a closed channel if and only if no step was such a reaping; and then every waiter that ended was acknowledged by a display report or pushed. |
| Unack.DuplicateLooksAcknowledged | notify_mobile.go:93-104 | A concrete run in which a notification that nobody displayed ends as if acknowledged. |
| Unack.WedgedForever | notify_mobile.go:90-91 | Once the agent sends to a waiter that no longer listens, nothing is received, registered, reaped or closed again. |
| Unack.WedgedExactly | notify_mobile.go:69-91 | A step wedges the agent if and only if it starts a send to a waiter that has stopped waiting, or lets the timer of the waiter being sent to win. |
| Unack.WedgedExactlyWhenSomeStepWedges | notify_mobile.go:66-109 | A run leaves the agent wedged if and only if one of its steps was of these two kinds. |
| Unack.RecoversExactlyWhenAwaited | notify_mobile.go:90-91 | A sending agent can still return to its select, in some continuation, if and only if the waiter is still waiting. |
| Unack.LateAcknowledgementWedges | notify_mobile.go:66-91 | An acknowledgement just after the timeout wedges the agent. |
| Unack.TimelyAcknowledgementWedges | notify_mobile.go:69-91 | So can one in time, if the timer wins. |
| Unack.UnackAgent.OnMessage | notify_mobile.go:86-98 | The agent's maps change by exactly the model's step for the message. |
| Unack.UnackAgent.OnReap | notify_mobile.go:100-104 | The agent's maps change by exactly the model's reaping step. |
| Debounce.PushoverAgent.Receive | notify_mobile.go:173-193 | The window is always the last ten sends; a message is skipped if and only if one of the last ten sends was of its id, and is sent otherwise. |
| Debounce.PushoverAgent.Run | notify_mobile.go:171-196 | The same over any list of messages. |
| Debounce.ArrivalsAreSent | notify_mobile.go:171-193 | In any run, each message that arrives is sent next, for good, unless its id is among the last ten sent by then. |
| Debounce.ElevenDistinct | notify_mobile.go:178-189 | In any run, any eleven consecutive sends have different ids. |
| Debounce.EachIsSent | notify_mobile.go:178-193 | Every id received is sent at least once, and no other. |

## Left out

- Election.OnlyTopmostActive: one direction only, and it excuses introducers robbed by an old writer. Coverage.SettledExactly and Fate.ElectsExactlyUnlessDoomed are exact and excuse nobody.
- Convergence.TimeoutsHealDepartures: that nothing stale is under way and that things settle are conditions of this statement; Healing.DeparturesHeal gets both from delivering.
- Promises.AcceptedKeyIsHeld: for a client started with a key. The loop that prompts for a key and retries (api/pmb.go:240-270) is not modelled, and neither is copyKey.
- Promises.ChainRunsInOrder: about processes of the modelled kinds; other programs on the bus may send requests and notifications of their own, but do not forge replies or triggers.
- Envelope.DecryptEncrypt: AES itself is a parameter, and so is the random IV. A result of the wrong length from the block function is replaced by sixteen zeroes.
- Envelope.DeliveredOncePerSharedKey: assumes that no wrong key decrypts a body to JSON and that the JSON encoder reads back what it wrote, from brace to brace and on one line.
- Envelope.ParseMessage: a logging call that slices the key is left out, and values inside the JSON object other than texts, numbers and truth values.
- Envelope.Decrypt: decoding malformed base64 stops at the first bad group.
- Programs.RunRun: a command whose last notification timed out still counts as having reached its end; the returned error and the message texts are not modelled. A notification's id and text are a fixed placeholder.
- Programs.SendNotification: a display report is matched by connection alone, as in the code, so an earlier notification's late report can satisfy a later wait.
- Broker.Manager.Accept: hand-off and insertion are one step here; Hub and Realms model them as two.
- Hub.QuietExactlyWhenNeverRash: the goroutines of retired brokers, and clients blocked on a stopped one, are not modelled.
- Unack.EndsOnceOneWay: safety only; the agent can wedge, as shown.
- The concurrency of the broker manager and of the mobile agent is modelled as step machines on values; api/ws.go is modelled as steps of the bus and not as objects.
- In `Bus` the broker's queue, the socket and the In channel of a program are one inbox. A disconnection may cut off any unread suffix of it, back to the last reconnection, and bodies lost inside the broker during the outage are the ones that a disconnected program misses.
- Joining puts the first messages into the outbox in the same step. Messages still in a dead connection are never delivered after a reconnection.
- In `Bus` all bodies of one message are published in one step, where the writer sends them one by one (api/ws.go:141-148); only a dead socket's writer stops between two of them.
- A client left behind on a broker that a rash tick retired counts as disconnected in `Bus`, although its socket is open.
- Two programs with the same id; a program has its own number as its id.
- The ten-slot capacity of In and Out, and so any deadlock of the programs that read and write them.
- AMQP and HTTP transports, websocket pings, deadlines and size limits.
- Levels are real numbers, so NaN is not modelled.
- runNotifyMobile's routing by level, plugins, config and credential helpers, tail and watch commands, the browser and the screen saver: calls out to the machine, of which only the log of deeds and two answers (what stops a URL from opening, is the screen saver on) appear.
