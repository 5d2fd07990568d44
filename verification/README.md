# A verified model of echoIRCd

echoIRCd is an IRC server written in Rust. This project models the parts of it that carry an argument rather than
plumbing, and proves what they promise. `dafny verify dfyconfig.toml` checks everything.

**Regular expressions** (`Regex*.dfy`). The parser, the back-patching compiler, the generation-stamped simulation and
the combined program for many patterns. The meaning of a pattern is given independently, as the spans of a text it
matches, and so is the grammar, in which every text has at most one reading. The parser decides that grammar; a search
answers true exactly when the pattern is found after a prefix without newlines; a set of patterns answers exactly as
its members do one by one; matching is linear in program times text.

**Linked servers** (`Channels`, `ChannelMerge`, `CrossedBursts`, `CrossedNicks`, `Netburst`, `MembershipViews`,
`LocalLines`, `TwoServers`, `Convergence`, `RankAgreement`). Channel bursts merge in any order to the same channel; two
servers whose bursts cross end up agreeing; nick collisions across a new link settle exactly when the timestamps allow
it; and over every interleaving of local steps and line deliveries from the handshake on, the lines in flight replayed
over what the receiver has recorded give the sender's own membership. When every line is delivered before the next user
acts, the servers also agree on every channel's timestamp, modes, masks and member status, exactly if the channels were
linkable to begin with and masks are removed as they are listed. The model of one server is `ServerState`; `LiveServer`
holds the handlers in the form that changes the tables in place, which keep the tables consistent over every run.

**Tables that must agree** (`MembershipInvariant`, `NickInvariant`, `ServerRuns`, `Watch`, `AcceptLists`, `Uuid`).
Membership in both directions, nick ownership through collisions, the WATCH/MONITOR index, the accept count and freshly
minted ids, each over every run.

**What each handler does to the tables** (`ServerEffects`, `NickOutcomes`). For every handler who is where afterwards,
with which rank and under which nick, and that nothing else changed, in terms of the tables before and of the line
alone; `LiveServer` proves the same of the handlers that work in place.

**Arithmetic** (`Limbs`, `Arctangent`, `PiWords`, `Machin`, `Calendar`, `IsoTime`, `Limiter`). The fixed-point
computation of the Blowfish constants and how near it comes to the real series, the civil calendar and its text form,
and the token-bucket accept limiter.

**Lines and masks** (`Message`, `MessageTags`, `Glob`, `OutputQueue`). The wire form (the message format of section
2.3.1 of RFC 2812) and its tags, the single-backtrack-point mask matcher and the bounded output queue of a connection.

Where a wanted property is false of the code, the code is modelled as it is, an input shows the failure, and the exact
condition is proved: `Glob.SafeTexts`, `IsoTime.RoundTrip`, `Message.RoundTrip`, `Limiter.ForgettingInvisible`,
`Limiter.WindowExact`, `AcceptLists.RenameExact`, `CrossedBursts.CrossedBurstsAgree`, `CrossedBursts.OneSidedBurst`,
`CrossedBursts.StaffPrefixSplits`, `CrossedNicks.CrossedUidsSettle`, `Convergence.ConvergesExactly`,
`Convergence.ModeExact`, `RegexWork.RepeatExact`.

Clocks, the socket's replies, table iteration orders, admission checks and the Unicode lower-casing function are
parameters; the prefix letters the configuration adds are an arbitrary constant. `hide` statements only narrow what the verifier looks at.

Runs in `ServerRuns` assume what the surrounding code provides: fresh connection numbers and uuids (distinct under
ASCII folding; `NickInvariant.FoldedTwins` shows why), joins by registered users, local nicks taken only when free,
SERVER lines from open links, and no incoming nick that is another user's uuid. The two-server model assumes only fresh
connection numbers and uuids and joins by registered users.

Documentation and code differ in four places, and the model follows the code. The UID line is described as carrying the
nick's timestamp but carries the sign-on time, which is what `CrossedNicks` is about. A flag group such as `(?i)` is
described as skipped, but the `)` that ends the flags does not close the group, so another one must follow. The comment
on the accept count says it counts lists, while a rename can leave it higher. And no pattern is meant to keep the
expression engine busy, which holds of matching but not of compiling nested repeats of nothing
(`RegexNest.NestAccepted`).

## Model

| member | source | states |
|---|---|---|
| RegexParser.NewPattern | src/regex.rs:79-96 | accepted iff the text spells a pattern within the nesting limit and its program has at most 200000 instructions; the program is then that of the one pattern spelled, and compiling took exactly the calls its tree dictates |
| RegexParser.ParsePattern | src/regex.rs:79-91 | exactly decides the grammar: a tree is returned iff the text spells it, and it is well formed and no higher than the nesting allows |
| RegexAst.ItemMeans | src/regex.rs:15-38 | which characters each shorthand and range stands for: the ten digits, the letters with digits and underscore, tab, newline, form feed, return and space, and their complements |
| RegexAst.ClassMeans | src/regex.rs:284-287 | a class matches one character, one that some item stands for, or when negated one that none does |
| RegexSyntax.EscapeMeans | src/regex.rs:569-583 | what a backslash makes of every character, in and outside a class |
| RegexSyntax.SingleMeans | src/regex.rs:532-567 | `.`, `^` and `$` alone, and every other character for itself |
| RegexSyntax.BoundMeans | src/regex.rs:482-515 | a bound needs digits, below 2^32 by place value; the two numbers are at most 1000 and in order |
| RegexSyntax.NumberMeans | src/regex.rs:482-515 | the digits of a bound are read as a decimal number, by place value |
| RegexSyntax.OneReading | src/regex.rs:428-651 | the grammar is unambiguous: a text spells at most one pattern, whatever nesting is allowed |
| RegexSyntax.UniqueRepeat | src/regex.rs:455-478 | one reading of an item: a `{` that begins a bound must be read as one, a quantifier that follows must be taken |
| RegexSyntax.UniqueBound | src/regex.rs:482-515 | one reading of a bound, by where its runs of digits end |
| RegexSyntax.UniqueMembers | src/regex.rs:585-651 | one reading of a class: `lo-hi` is a range wherever `-` is not followed by `]` |
| RegexParser.Search | src/regex.rs:79-130 | from pattern text to answer: refused iff the text spells nothing or its program is too large, else true iff the pattern it spells is found in the text |
| RegexParser.SearchSet | src/regex.rs:206-281 | from pattern texts to indices: refused iff some text spells nothing or the programs are too large together, else ascending and exactly the patterns whose meaning is found |
| RegexParser.Parser.ParseAlt | src/regex.rs:428-438 | total and always inside the text; what it read reads as the alternation it returns, and it refuses only where no alternation can be read, nesting counted from the depth reached |
| RegexParser.Parser.ParseConcat | src/regex.rs:440-453 | the items up to a bar, a closing parenthesis or the end, or a refusal only where no such items can be read |
| RegexParser.Parser.ParseRepeat | src/regex.rs:455-478 | an atom with its quantifier and an ignored lazy mark; refuses only where no item can be read |
| RegexParser.Parser.TryBound | src/regex.rs:482-515 | three-way: a bound in range is read, a bound out of range is an error, and nothing is consumed iff no bound can be read there |
| RegexParser.Parser.ParseAtom | src/regex.rs:532-567 | the atom at the cursor, nesting restored; refuses only where no atom can be read with the nesting left |
| RegexParser.Parser.ParseClass | src/regex.rs:585-625 | a bracket expression, a first `]` being a member; refuses only where none can be read |
| RegexParser.Parser.ParseMember | src/regex.rs:599-651 | a shorthand, a letter, or the range a dash demands; refuses only where no member can be read |
| RegexCompiler.Compiler.Compile | src/regex.rs:296-376 | appends exactly the code of the tree at the current end and fails iff that would pass 200000 instructions; the recursive calls are exactly those the tree dictates when it fits, and, fitting or refused, at most 2 * nodes * (1 + instructions emitted) unless a counted repeat emits nothing |
| RegexCompiler.Compiler.CompileAlt | src/regex.rs:311-331 | the back-patched alternation is the code with every branch jumping to the common end |
| RegexCompiler.Compiler.AimJumps | src/regex.rs:327-330 | back-patching aims exactly the recorded jumps and changes nothing else |
| RegexCompiler.Compiler.CompileRepeat | src/regex.rs:357-369 | bounded repetition is the required copies followed by optional ones or a star |
| RegexCode.EmitClosed | src/regex.rs:296-376 | every Split and Jmp target lies inside the fragment or at its end, wherever the fragment is placed |
| RegexWork.ThriftySteps | src/regex.rs:296-376 | a tree whose counted repeats all emit code takes at most 2 * nodes * max(1, instructions) calls, a repeat counting as two nodes |
| RegexWork.RepeatExact | src/regex.rs:357-369 | over every bound the parser lets through (counts up to 1000): all repeats of such a body stay within that many calls iff the body emits code, or 1 + 1000 * its calls is at most 2 * (its nodes + 2) |
| RegexWork.EmptyNest | src/regex.rs:357-369 | repeats of nothing, nested, emit nothing, so no size test trips, and take 1000^depth calls |
| RegexNest.NestReads | src/regex.rs:482-567 | `((...(){1000}...){1000}){1000}` is read as that nest up to 200 pairs of parentheses, and beyond as nothing at all |
| RegexNest.NestAccepted | src/regex.rs:79-96 | so `Regex::new` accepts 8 * d characters that take 1000^d calls, for every d up to 200 |
| RegexMachine.Sound | src/regex.rs:296-376 | a run of the code of a tree that accepts reads a span the tree matches, then accepts from the end of the fragment |
| RegexMachine.Complete | src/regex.rs:296-376 | every span the tree matches is read by some run of its code |
| RegexMachine.SoundStar | src/regex.rs:332-340 | runs of a star's code read some number of matches of its body, empty ones included |
| RegexMachine.SoundRepeat | src/regex.rs:357-369 | runs of a bounded repeat read between the minimum and the maximum number of copies |
| RegexMachine.CompleteRepeat | src/regex.rs:357-369 | every number of copies within the bounds is readable |
| RegexMatcher.ThreadListGood | src/regex.rs:137-171 | at each position the thread list is duplicate-free, consists of consuming instructions and is no longer than the program |
| RegexMatcher.SimulationExact | src/regex.rs:100-130 | the lock-step simulation accepts iff some run of the program accepts |
| Regex.NewRegex | src/regex.rs:79-96 | compiles behind the `.*` prefix exactly when the tree fits, to a program that is safe to run, in exactly the calls the tree dictates, at most 2 * nodes * 200001 unless a counted repeat emits nothing |
| Regex.AcceptsExactlyFound | src/regex.rs:79-96 | the compiled program accepts iff there are i <= j with no newline in text[..i] and the tree matching text[i..j] |
| Regex.AddThread | src/regex.rs:137-171 | the stack loop with generation stamps appends exactly the unseen part of the epsilon closure, popping at most twice the newly stamped counters plus one |
| Regex.Advance | src/regex.rs:108-124 | one pass over the current list: true iff it holds Match, else the next list |
| Regex.IsMatch | src/regex.rs:100-130 | the answer is that of the simulation, with at most 3 * &#124;program&#124; * (&#124;text&#124; + 1) stack pops |
| Regex.SearchExact | src/regex.rs:100-130 | so `is_match` is true iff the pattern is found in the text |
| RegexSet.PushesOwn | src/regex.rs:186-199 | following a relocated instruction is following the original, shifted |
| RegexSet.ClosureOwn | src/regex.rs:137-171 | the shared closure restricted to one pattern's counters is that pattern's own closure, despite the shared stamps |
| RegexSet.ThreadListOwn | src/regex.rs:229-281 | the shared thread list restricted to one pattern is that pattern's own list, at every position |
| RegexSetSearch.NewSet | src/regex.rs:206-226 | assembles the relocated programs side by side, refusing iff their total passes the size cap |
| RegexSetSearch.AssembledPlaced | src/regex.rs:186-226 | in the assembled program each part is placed whole and no other part jumps into it |
| RegexSetSearch.HitsOwn | src/regex.rs:229-281 | the shared run hits pattern i iff pattern i's own simulation accepts |
| RegexSetSearch.MatchSet | src/regex.rs:229-281 | ascending, and exactly the patterns that hit, even though the loop stops once all have |
| RegexSetSearch.SearchAll | src/regex.rs:206-281 | from trees to indices: ascending, and exactly those whose own tree is found in the text |
| Channels.LettersRoundTrip | src/channels.rs:230-252 | granting the letters a member shows gives that member back, the config-defined prefix letters included and in order |
| Channels.FoldMeans | src/channels.rs:736 | folding turns each capital into its small letter and changes nothing else |
| Channels.GrantMeans | src/channels.rs:185-202 | granting letters gives exactly the prefixes they stand for, on top of those held |
| Channels.GrantCustomMeans | src/channels.rs:185-202 | and the configured letters among them that no built-in prefix answers to |
| Channels.RankedMeans | src/channels.rs:185-202 | a rank switched on or off: its own prefix, built-in or configured, is held afterwards iff it was switched on, every other prefix as before |
| Channels.StatusMeans | src/channels.rs:181-183 | losing the time war takes every prefix but the network-staff one |
| Channels.SetFlagMeans | src/channels.rs:328-356 | a known flag is set afterwards iff it was switched on; every other flag, key, limit and parameter mode stays |
| Channels.ModeStringMeans | src/link.rs:2976-2983 | after any mode string a known flag is set iff its last occurrence stood under `+`, or it has none and was set before; nothing else changes |
| Channels.RenderMeans | src/channels.rs:359-420 | which characters a rendered mode string has: the flags, parameter modes, key and limit that are set |
| Channels.AdditiveModes | src/channels.rs:328-356 | a `+` mode string adds exactly the known flags it names |
| Channels.RenderNames | src/channels.rs:359-420 | the rendered mode string is additive and names exactly the flags held, whatever key, limit and other parameter letters it shows |
| ChannelMerge.OneMerge | src/link.rs:2944-3007 | one FJOIN on a held channel: lower time wins, equal times merge, a newer one only adds plain members |
| ChannelMerge.MergeOutcome | src/link.rs:2944-3007 | after any sequence of mergeable FJOINs: the time is the minimum, the flags are the union over contributions at the minimum, and status is kept iff contributed at the minimum |
| ChannelMerge.MergeOrderFree | src/link.rs:2944-3007 | any permutation of the same FJOINs leaves the same channel |
| CrossedBursts.BurstReceived | src/link.rs:2693-2818 | what a whole channel burst does to a held channel, lists, key and limit included |
| CrossedBursts.CrossedBurstsAgree | src/link.rs:2876-3013 | after both crossed bursts the two servers agree on time, flags, masks, membership and q/a/o/h/v status: settings of the lower time (of both if equal), everybody a member, status only from a side at the lower time; key and limit agree iff the times differ or they do not conflict, and the other parameter modes, which no burst carries, iff the lower side has none or equal sides have the same |
| CrossedBursts.OneSidedBurst | src/link.rs:2930-3013 | a channel only one side held: everything agrees except that the flags agree iff they include n and t, and the other parameter modes iff there are none |
| CrossedBursts.StaffPrefixSplits | src/channels.rs:181-183 | the y prefix survives losing the time war, so the sides agree on it iff the loser held none; on the whole member iff the loser held no config-defined prefix either |
| Netburst.BurstTellsAll | src/link.rs:472-482 | replayed from nothing, the users and channels of a netburst are exactly the sender's registered users and their channels, in whatever order the tables are walked |
| Netburst.ChannelBurstReplay | src/link.rs:2876-2928 | one channel's FJOIN and FMODE lines add exactly its local members |
| MembershipViews.RecvReplays | src/link.rs:1992-2100 | handling a UID, NICK, SAVE, FJOIN, FMODE, IJOIN, PART or QUIT line changes the recorded membership exactly as the line says, whatever nick collisions it causes |
| MembershipViews.FjoinReplays | src/link.rs:2930-3013 | an FJOIN adds exactly its listed, known users |
| MembershipViews.QuitReplays | src/link.rs:2147-2175 | a QUIT takes the user off every channel and out of the record |
| MembershipViews.RecvKeepsLocal | src/link.rs:1992-2100 | a peer's lines never change our own users' membership |
| LocalLines.SendsReplay | src/link.rs:1841-1905 | the lines a local step sends, replayed over the old view of our users, give the new one |
| LocalLines.JoinMeaning | src/link.rs:1841-1886 | a join is announced by one line, FJOIN for a new channel and IJOIN otherwise, that means exactly that membership |
| LocalLines.QuitsReplay | src/server.rs:1048-1147 | a registered user's quit sends one QUIT line that means all its memberships; an unregistered one sends nothing and had none |
| TwoServers.RecvKeepsNode | src/link.rs:1248-1341 | handling any line keeps the tables consistent and everything remote under the peer's SID and link |
| TwoServers.NextKeeps | src/link.rs:280-352 | each step of the two-server network, handshake and netburst included, keeps: lines in flight replayed over the receiver's record give the sender's own view |
| TwoServers.InFlightAgrees | src/link.rs:1841-1905 | so in every interleaving from the handshake on |
| TwoServers.QuietAgrees | src/s2s_sim.rs:170-185 | and whenever both queues are empty the two servers show the same users on every channel, whatever was in flight before |
| Convergence.LinkableExact | src/link.rs:2876-3013 | for every pair of sides of a channel, after both bursts time, flags, key, limit, masks and the set of other parameter modes are alike iff the sides were linkable: with members on both, the times differ or key and limit do not conflict; with members on one, the other has no such channel (and n and t are set), is newer, or is as old and adds nothing; with members on neither, they were alike already; and the side that prevails has no other parameter modes the burst would lose |
| Convergence.BurstPending | src/link.rs:2876-2928 | of a whole netburst only the lines of one channel matter to that channel, and a channel without local members has none |
| Convergence.ShakenExact | src/link.rs:280-352 | once the handshake and both bursts are through, in whatever order lines and tables went, each channel is alike at both ends iff it was linkable |
| Convergence.StepHeard | src/link.rs:1841-2175 | whatever a user does while nothing is in flight, one line at most goes out, and the peer that handles it agrees again: joins, creations, mode changes, parts and quits with the reaping they cause |
| Convergence.ModeExact | src/link.rs:2693-2818 | a mode change (flag, key, limit, mask or rank) leaves the servers agreed once the FMODE is handled iff a removed mask was spelled as it is listed: the user's own server compares masks without case, the peer does not |
| Convergence.UnbanMissed | src/mode.rs:895-912 | the failing input: the ban `*!*@Host` removed as `*!*@host` goes at one end and stays at the other |
| Convergence.PacedAgrees | src/s2s_sim.rs:193-300 | over every run from the handshake on in which each line is delivered before the next user acts: with nothing in flight both servers hold the same channels with the same members, timestamp, modes and masks, if every channel was linkable and masks are removed as they are listed |
| Convergence.Settles | src/s2s_sim.rs:137-163 | from every state of a run the lines in flight can be delivered until none is left |
| Convergence.ConvergesExactly | src/s2s_sim.rs:270-300 | every such run ends in agreement iff every channel was linkable when the servers linked |
| RankAgreement.ShakenMeet | src/link.rs:2876-3013 | after the handshake, in whatever order lines and tables went, every user has at the other server the q/a/o/h/v status its own server kept, if the channels were linkable |
| RankAgreement.StepRanks | src/link.rs:1841-2175 | whatever a user does while nothing is in flight, ranks given and taken included, the statuses are equal again once the peer has heard of it |
| RankAgreement.RanksConverge | src/s2s_sim.rs:193-300 | so over every such run: with nothing in flight each server shows the other's users exactly where they are and with the status they have there |
| Convergence.ForgottenChannel | src/link.rs:2880-2890 | the failing run: a kept-alive channel without members is not bursted, the other server's next join creates it anew, and both show the same members under different timestamps |
| MembershipInvariant.JoinKeeps | src/channels.rs:984-1002 | a join keeps membership recorded in both directions |
| MembershipInvariant.LeaveKeeps | src/channels.rs:700-727 | part, force-part, flood-kick and local kicks keep it, and reaping drops only empty channels |
| MembershipInvariant.RenameKeeps | src/channels.rs:1131-1170 | renaming a channel moves it in every local member's set |
| MembershipInvariant.RemoveUserKeeps | src/server.rs:1048-1147 | a quit leaves no trace in any channel |
| MembershipInvariant.DropRemoteKeeps | src/link.rs:2147-2175 | every remote member stays a known remote user |
| MembershipInvariant.CloseLinkKeeps | src/link.rs:365-386 | after a netsplit no remote user or server hangs on the dead link |
| MembershipInvariant.FjoinKeeps | src/link.rs:2930-3013 | an FJOIN enters only known remote users and touches no local membership |
| MembershipInvariant.KickKeeps | src/link.rs:2554-2623 | a remote kick of a local or remote user keeps both directions |
| NickInvariant.OneOwner | src/link.rs:1248-1341 | no folded nick is held by two known users, local or remote |
| NickInvariant.FoldedTwins | src/link.rs:1248-1341 | two uuids that differ only in case break this: after both lose a collision the second replaces the first in the table |
| NickInvariant.SetNickKeeps | src/users.rs:460-485 | taking a free nick keeps both tables exact inverses of the nicks held |
| NickInvariant.ResolveLocalKeeps | src/link.rs:1371-1408 | a newcomer that does not lose against a local holder finds the nick free |
| NickInvariant.ResolveRemoteKeeps | src/link.rs:1416-1448 | likewise against a remote holder, services keeping theirs |
| NickInvariant.SaveRemoteKeeps | src/link.rs:1454-1471 | falling back to the uuid is always free |
| NickInvariant.ArbitratedKeeps | src/link.rs:1248-1341 | whatever two rounds of arbitration decide, the newcomer's final nick is free in both tables |
| NickInvariant.UidRecvKeeps | src/link.rs:1248-1341 | a UID keeps the name tables exact |
| NickInvariant.NickRecvKeeps | src/link.rs:1492-1561 | a NICK keeps them exact, also when the changer loses and keeps its old nick |
| NickInvariant.SaveRecvKeeps | src/link.rs:1476-1490 | a SAVE keeps them exact, whichever timestamp it carries |
| NickInvariant.CloseLinkKeepsNames | src/link.rs:365-386 | a netsplit takes exactly the dropped users' nicks out |
| NickOutcomes.UidAgainstLocal | src/link.rs:1371-1408 | a newcomer with a local user's nick, no service involved: of different people the earlier time keeps the nick, of one person the later, of equal times neither; whoever does not is under its uuid, and nothing but nicks changes |
| NickOutcomes.UidAgainstRemote | src/link.rs:1416-1448 | the same against a remote holder |
| NickOutcomes.UidFree | src/link.rs:1248-1341 | a nick nobody has is the newcomer's |
| NickOutcomes.NickAgainstLocal | src/link.rs:1492-1561 | a NICK for a local user's nick: the same rule, except that a changer that loses keeps the nick it had |
| NickOutcomes.NickAgainstRemote | src/link.rs:1492-1561 | the same against another remote user |
| NickOutcomes.NickFree | src/link.rs:1492-1561 | a nick nobody else has is taken, with the line's time |
| NickOutcomes.ServicesWin | src/link.rs:1371-1448 | a service takes the nick whatever the times, and keeps its own |
| NickOutcomes.NotHeard | src/link.rs:1248-1561 | a NICK not from the user's own link, or a UID malformed or already known, changes nothing |
| NickOutcomes.SaveOutcome | src/link.rs:1476-1490 | a SAVE with the time its user took the nick sends that user to its uuid; any other changes nothing |
| CrossedNicks.DecisionsMirror | src/link.rs:3025-3033 | the decision seen from the other end is the same one, and somebody yields |
| CrossedNicks.UidAgainstHolder | src/link.rs:1248-1341 | against a local holder each of the two keeps its nick or goes under its uuid exactly as decided |
| CrossedNicks.SaveOwn | src/link.rs:1476-1490 | a SAVE is obeyed iff it carries the time its user took the nick |
| CrossedNicks.CrossedUidsSettle | src/link.rs:1371-1490 | two users with one nick introduced to each other's servers: each with its own clock: after every NICK and SAVE that follows, both servers show the same two nicks iff neither user, told to yield by the other end alone, took its nick at another time than it signed on |
| CrossedNicks.SignOnNicksSettle | src/link.rs:428-447 | nicks taken at sign-on time always settle |
| CrossedNicks.LateNicksSplit | src/link.rs:428-447 | two concrete servers: one person's two sessions with later nick times, after which each server shows its own user under the nick the other took away |
| ServerEffects.JoinEffect | src/channels.rs:731-1002 | a join: a known user, admitted under an acceptable name and not yet on it, is on it afterwards, opped with +nt as founder or plain; nobody else moves, and otherwise nothing changes |
| ServerEffects.LeaveEffect | src/channels.rs:700-727 | one membership is gone from the channel and from the user; every other stays with its rank, and the channel goes iff nobody is left and it is not permanent |
| ServerEffects.QuitEffect | src/server.rs:1048-1147 | a quit takes the user, its uuid, its nick and all its memberships, and nobody else's |
| ServerEffects.RenameEffect | src/channels.rs:1131-1170 | the channel with everybody on it is found under the new name only, in the table and in each local member's set; an unknown or taken name changes nothing |
| ServerEffects.NickEffect | src/users.rs:460-485 | the index finds the user under the new nick and not under the old one, everyone else as before |
| ServerEffects.CloseEffect | src/link.rs:365-386 | a netsplit takes exactly the users and servers behind the link, their nicks and their memberships |
| ServerEffects.ServerEffect | src/link.rs:280-352 | a SERVER line with a SID of a digit and two digits or capitals, not ours and new, marks the link up and files the peer behind it; any other closes the link |
| ServerEffects.RemoteQuitEffect | src/link.rs:2147-2175 | over its own link a remote user, its nick and its memberships are gone; from anywhere else nothing changes |
| ServerEffects.RemotePartEffect | src/link.rs:2061-2100 | over its own link one remote membership is gone, every other stays |
| ServerEffects.KickEffect | src/link.rs:2554-2623 | the victim, a local uuid, then a local nick without case, then a remote uuid, then a remote nick, is off the channel; every other membership stays; a source not behind the link changes nothing |
| ServerEffects.FmodeEffect | src/link.rs:2693-2818 | an FMODE newer than the channel does nothing; any other sets or clears exactly the flag, key, limit, mask or rank it names |
| ServerEffects.ModeEffect | src/coremods/core_mode.rs:72-201 | a member's permitted mode change sets or clears exactly what it names, masks compared without case; otherwise nothing changes |
| ServerEffects.IjoinEffect | src/link.rs:1992-2059 | over its own link a user enters with exactly the prefixes its letters name, none if the field is not all letters; nobody else moves, and a channel first heard of starts with +nt and the line's time |
| ServerEffects.FjoinEffect | src/link.rs:2930-3013 | the settings after an FJOIN: a lower time replaces flags and clears key, limit, masks and status, an equal one adds flags, a higher one does nothing |
| ServerEffects.FjoinServer | src/link.rs:2930-3013 | at the server only that channel changes: besides its settings, the remote users it lists are on it with the prefixes of their last entry, none if our time was lower; everyone else stays |
| ServerRuns.StepKeepsMembers | src/link.rs:1992-2175 | every one of twenty-one kinds of event keeps membership two-way, remote members known and links live |
| ServerRuns.StepKeepsNames | src/link.rs:1248-1575 | and keeps the name tables exact and disjoint |
| ServerRuns.RunsKeepInv | src/link.rs:1248-2623 | so over every run from an empty server |
| LiveServer.Live.Serve | src/link.rs:1248-2623 | the server changed in place: from consistent tables, over every allowed run of twenty-one kinds of event, the tables stay consistent and follow the runs of ServerRuns |
| LiveServer.Live.Handle | src/link.rs:1248-2623 | one event in place keeps membership two-way, remote members known, links live and both nick tables exact and disjoint |
| LiveServer.Live.JoinChannel | src/channels.rs:731-1002 | keeps the tables consistent; a known user admitted under a good name is on the channel, founder or plain, and nobody else moves |
| LiveServer.Live.DropMembership | src/channels.rs:700-727 | keeps the tables consistent; exactly that one membership is gone |
| LiveServer.Live.PartChannel | src/channels.rs:1081-1120 | keeps the tables consistent; answers whether the user was on the channel, and it is not afterwards |
| LiveServer.Live.SetMode | src/coremods/core_mode.rs:72-201 | one mode of a MODE command, a member's rank or a setting: exactly what it names is set or cleared, masks compared without case, and everybody stays; not permitted, nothing changes; keeps the tables consistent |
| LiveServer.Live.RenameChannel | src/channels.rs:1131-1170 | the member-by-member loop re-keys all members at once and keeps the tables consistent; the channel is found under the new name only |
| LiveServer.Live.Nick | src/users.rs:460-485 | a free nick is taken: the index finds the user under it, and both tables stay exact |
| LiveServer.Live.UserGone | src/server.rs:1048-1147 | the channel-by-channel loop leaves all channels at once and keeps the tables consistent; only that user's memberships, nick and uuid are gone |
| LiveServer.Live.RemoteGone | src/link.rs:2147-2175 | in place: out of the channels that hold the user, then out of both registries, everybody else as before |
| LiveServer.Live.LinkGone | src/link.rs:365-386 | dropping the users behind a link one after another, reaping each time, is dropping them together, and leaves the tables consistent |
| LiveServer.DroppedOne | src/link.rs:365-386 | one more drop after the others is one joint drop |
| LiveServer.Live.ServerLine | src/link.rs:280-352 | keeps the tables consistent; the link survives iff the SID is valid, not ours and new, and then the peer is registered behind it |
| LiveServer.Live.AgainstLocal | src/link.rs:1371-1408 | keeps the tables consistent; no service involved, holder and newcomer each keep the nick or lose it by time and person, and a holder that loses is left under its uuid |
| LiveServer.Live.AgainstRemote | src/link.rs:1416-1448 | likewise for a remote holder, services keeping theirs |
| LiveServer.Live.Save | src/link.rs:1454-1471 | keeps the tables consistent; our copy of the loser goes under its uuid |
| LiveServer.Live.UidLine | src/link.rs:1248-1341 | keeps the tables consistent through the collisions; a well-formed newcomer ends up known, under the wanted nick or its uuid |
| LiveServer.Live.NickLine | src/link.rs:1492-1561 | keeps the tables consistent; the user keeps its nick or takes the new one, the latter only if the line came over its own link |
| LiveServer.Live.SaveLine | src/link.rs:1476-1490 | keeps the tables consistent; a user whose nick time the line carries goes under its uuid |
| LiveServer.Live.QuitLine | src/link.rs:1564-1575 | keeps the tables consistent; over its own link the user is gone from the registry and from every channel |
| LiveServer.Live.FjoinLine | src/link.rs:2930-3013 | arbitration, the mode-string loop and the member loop, keeping the tables consistent; settings and members end up as the times decide |
| LiveServer.Live.IjoinLine | src/link.rs:1992-2059 | keeps the tables consistent; exactly the one membership is added, and only over the user's own link |
| LiveServer.Live.PartLine | src/link.rs:2061-2100 | keeps the tables consistent; exactly the one membership is removed, and only over the user's own link |
| LiveServer.Live.KickLine | src/link.rs:2554-2623 | keeps the tables consistent; the victim, local before remote and uuid before nick, is off the channel and every other membership stays; a source not behind the link changes nothing |
| Limbs.DivSmallUpto | src/bcrypt.rs:35-42 | dividing limbs 0..=hi in place is dividing the number they hold |
| Limbs.AddAssignUpto | src/bcrypt.rs:52-66 | adds the low limbs with carry through the rest, exact modulo the array's range |
| Limbs.SubAssignUpto | src/bcrypt.rs:68-92 | subtracts with borrow through the rest, exact modulo the array's range |
| Arctangent.PartialSums | src/bcrypt.rs:111-137 | every partial alternating sum lies between 0 and the first summand, so no carry or borrow leaves the array |
| Arctangent.SummandsVanish | src/bcrypt.rs:111-137 | once a term is zero every later term and summand is |
| Arctangent.AtanInv | src/bcrypt.rs:111-137 | for x >= 2 with x * x < 2^32 it stops, and the limbs hold exactly the alternating sum of floor(2^BITS / ((2k+1) x^(2k+1))) over all k where it is not zero, stale limbs of the scratch array notwithstanding |
| Arctangent.AtanWhole | src/bcrypt.rs:111-137 | that sum is the one number every run to a zero term gives |
| Arctangent.SeriesComplete | src/bcrypt.rs:111-137 | nothing is lost by stopping there: every later summand is zero |
| PiWords.MulSmall | src/bcrypt.rs:43-50 | multiplies in place, exact modulo the array's range |
| PiWords.FractionBounds | src/bcrypt.rs:141-160 | 16 atan(1/5) - 4 atan(1/239), as computed, lies between 3 and 4 units, so no step of the combination wraps around |
| PiWords.Digits | src/bcrypt.rs:141-152 | the array then holds exactly that combination less 3 |
| PiWords.Words | src/bcrypt.rs:141-160 | the words, most significant first, are that fraction divided by the two guard limbs, rounded down |
| PiWords.BlowfishWords | src/bcrypt.rs:141-160 | with the source's 1046 limbs there are 1042 words, and which integer they spell |
| Machin.AtanNear | src/bcrypt.rs:111-137 | the fixed-point arctangent is within one unit per summand, and one more, of every longer partial sum of the real series |
| Machin.WordsNear | src/bcrypt.rs:141-160 | the two guard limbs absorb all the flooring: what the words spell is less than two units of the last word below, and one above, every longer partial sum of 16 atan(1/5) - 4 atan(1/239) - 3 over the reals |
| Calendar.YearFound | src/server.rs:76-90 | the era arithmetic finds the March-based year the day lies in, leap days included |
| Calendar.DateValid | src/server.rs:76-90 | every day number gives a month in 1..12 and a day of that month and year, and the inverse formula returns the day number |
| Calendar.DateBack | src/server.rs:137-146 | every valid date from 1970 on is returned by the conversion of its day number |
| Calendar.DaysNext | src/server.rs:137-146 | the next Gregorian date has the next day number |
| Calendar.CivilCounts | src/server.rs:76-90 | day 0 is 1 January 1970 and each day is the next Gregorian date after the one before |
| IsoTime.ParseFormat | src/server.rs:116-147 | formatted fields, however large, are parsed back field by field |
| IsoTime.TextForm | src/server.rs:92-95 | up to 253402300799: 24 characters, `-`, `-`, `T`, `:`, `:`, `.`, `Z` at 4, 7, 10, 13, 16, 19 and 23, digits elsewhere, and the numbers they spell are the year, month, day, hour, minute and second of the time, and 000 |
| IsoTime.ParseRange | src/server.rs:116-147 | formatted fields are refused exactly if the year is above 9999, the month not 1 to 12, the day not 1 to 31, or the hour, minute or second above 23, 59 or 60; otherwise they give the second they name, 0 before 1970 |
| IsoTime.ParseI64Means | src/server.rs:116-128 | a field is digits with at most one sign in front, and the number they spell by place value if it fits 64 bits |
| IsoTime.RoundTrip | src/server.rs:92-147 | parse_iso(iso_time(s)) is s iff s is at most 253402300799 |
| Limiter.AcceptLimiter.Decide | src/socketengine.rs:399-418 | if a minute fills a bucket, the call is granted iff the address has a token, and only that address pays for it |
| Limiter.Waiting | src/socketengine.rs:409-411 | a known address earns `rate` tokens a second up to the burst; an unknown one has the whole burst |
| Limiter.Remembers | src/socketengine.rs:404-418 | who is remembered after a decision: the caller, and of the others, once half a minute has passed, those heard of within the minute |
| Limiter.Spending | src/socketengine.rs:399-418 | accepts for an address never exceed what it held plus what it earned |
| Limiter.RunWindow | src/socketengine.rs:399-418 | in any window of a run one address is accepted at most burst + rate * length times, if a minute fills a bucket |
| Limiter.WindowExact | src/socketengine.rs:399-418 | and every window of every run of a fresh limiter stays within the bound iff burst <= 60 * rate |
| Limiter.SameDecisions | src/socketengine.rs:404-408 | then the forgetting limiter decides every call of every run as one that keeps all buckets |
| Limiter.ForgettingInvisible | src/socketengine.rs:404-408 | and only then: forgetting changes no decision of any run iff burst <= 60 * rate |
| OutputQueue.Connection.Enqueue | src/socketengine.rs:688-712 | the unsent bytes become what they were, the line, CR and LF iff that is at most hardsendq bytes, else nothing and the connection closes; reads are paused iff more than softsendq is unsent |
| OutputQueue.Connection.FlushTo | src/socketengine.rs:1010-1055 | the write loop against partial writes, interruptions and failures |
| OutputQueue.WriteOutMeans | src/socketengine.rs:1010-1035 | the write loop goes on past interruptions and partial writes and stops at the first other reply: it has written what the socket took up to there, and fails iff that reply is a failure with bytes left |
| OutputQueue.LineCounts | src/socketengine.rs:688-712 | in a run, a line is lost exactly when what is unsent, the line and two bytes pass hardsendq, and that starts the closing |
| OutputQueue.EndsWhenDrained | src/socketengine.rs:1010-1055 | a connection ends with a flush iff a write or the flush failed, or it was asked to close, nothing is left and the transport wants no write |
| OutputQueue.FlushSplits | src/socketengine.rs:1010-1055 | a flush moves exactly the written prefix of the unsent bytes to the wire; reads are paused afterwards iff more than softsendq remains; it closes iff a write or the final flush failed, or a closing connection has nothing left |
| OutputQueue.OutputExact | src/socketengine.rs:688-712 | over every run: bytes taken and bytes unsent are exactly the queued lines in order until the first overflow, and unsent bytes never exceed hardsendq |
| Message.ParsesExactly | src/message.rs:51-122 | a line parses to a message iff it is laid out as optional blanks, a tag block, a source, a command and parameters with one or more spaces between them; it then says exactly that source, the command in capitals and those parameters, a `:` making the rest of the line the last one |
| Message.SpeltParams | src/message.rs:95-111 | the parameters read from any text are the words between its runs of spaces, and the trailing one after a `:` |
| Message.WireText | src/message.rs:30-47 | a space before each parameter, and a colon before the last only if it is empty, has a space or begins with a colon |
| Message.Parse | src/message.rs:51-122 | the parameter loop computes what the line says |
| Message.ToWire | src/message.rs:30-47 | the append loop writes the message's wire form |
| Message.WellFormedBack | src/message.rs:30-122 | a well-formed message survives being written and parsed |
| Message.ParseShape | src/message.rs:51-122 | every untagged line that parses yields a well-formed message |
| Message.RoundTrip | src/message.rs:30-122 | writing then parsing returns the message iff it is well formed |
| Message.TaggedLine | src/message.rs:51-80 | a tagged line can yield a message that is not: `@a @b` |
| MessageTags.ParseLine | src/message.rs:51-122 | all of `parse`: the message with the tag loop's client tags, label, batch and concat mark, or nothing at all |
| MessageTags.TagsMean | src/message.rs:54-79 | the client-only tags in their order, and of label and batch the last value |
| MessageTags.ClientMeans | src/message.rs:54-79 | the tags kept for relaying are exactly those that begin with `+` |
| MessageTags.RelaySurvives | src/message.rs:54-79 | a line relayed with the kept client-only tags is read with exactly those |
| Glob.GlobBytes | src/channels.rs:1602-1626 | stops on all inputs; true implies a declarative match, and is equivalent to it unless both mask and text have a `*`; same answer as the other loop on folded input |
| Glob.GlobChars | src/channels.rs:1629-1653 | the same for text already lower-cased |
| Glob.GlobMatch | src/channels.rs:1592-1600 | the byte path and the lower-cased path give one answer: true implies a match of the lower-cased texts, and is equivalent to it unless both have a `*` |
| Glob.Sound | src/channels.rs:1602-1626 | one backtrack point: whatever the walk accepts is a match |
| Glob.Complete | src/channels.rs:1602-1626 | forgetting earlier stars loses nothing |
| Glob.SafeTexts | src/channels.rs:1602-1626 | every mask is answered correctly on a text iff the text has no `*` |
| Watch.Watchers.WatchAdd | src/watch.rs:82-98 | keeps the index the exact scan of the lists; exactly that pair is added, at the end of the one list |
| Watch.Watchers.WatchRemove | src/watch.rs:101-119 | keeps it; exactly that pair is gone, the list's other entries and their order stay |
| Watch.Watchers.WatchClear | src/watch.rs:122-136 | the loop de-indexes every entry; the list is empty, every other unchanged, and no nick is indexed for the user |
| Watch.Watchers.WatcherQuits | src/server.rs:1071-1087 | the list is gone, every other unchanged, and no nick is indexed for the user |
| Watch.RunExact | src/watch.rs:82-193 | after every sequence of edits and quits each nick's set holds exactly the users listing it, and no set is empty |
| Watch.WatchersOf | src/watch.rs:58-79 | so reading the index is scanning all lists |
| AcceptLists.CallerIds.AcceptAdd | src/server.rs:899-909 | the nick is appended to the one list; no nick is ever in more entries than it is counted for; an exact count stays exact |
| AcceptLists.CallerIds.AcceptRemove | src/server.rs:912-930 | the nick is off the one list, its other entries in order, and one off the count; still no nick in more entries than counted |
| AcceptLists.CallerIds.UserQuits | src/server.rs:1061-1115 | the own list is gone and every other loses exactly the departed nick, though scanned only if counted: the same tables as with a full scan |
| AcceptLists.RenameEffect | src/users.rs:486-502 | a rename swaps the old nick for the new one, place by place, on every list |
| AcceptLists.QuitsAsScanned | src/server.rs:1104-1115 | after every run of edits, renames and quits the skipped scan leaves the same lists as a full one |
| AcceptLists.RunExact | src/server.rs:899-930 | over runs whose renames never merge two entries of a list, the count is exactly the number of lists with the nick |
| AcceptLists.RenameExact | src/users.rs:486-502 | after a rename every count is the number of lists with the nick iff no list held both the old and the new nick; the lists stay repeat-free under the same condition |
| AcceptLists.RenameMiscounts | src/users.rs:486-502 | otherwise a nick in no list can stay counted |
| Uuid.SuffixSpells | src/link.rs:92-112 | the suffix is k capitals, the base-26 spelling of the counter with A for 0, and comes round again after 26^k |
| Uuid.SuffixDistinct | src/link.rs:92-112 | counters less than 26^k apart have different k-letter suffixes |
| Uuid.Mint.NextUuid | src/link.rs:92-112 | with fewer than 26^6 ids of this SID live it stops, at the first id from the counter on that neither table holds |

## Left out

- RegexParser.ParsePattern: that a pattern is refused, and exactly when, not the words of the error.
- Regex.IsMatch: the stamp counter is unbounded here; the source's 32-bit one suffices for texts shorter than 2^32 - 2 characters.
- Arctangent.AtanInv: the `32 * (n - 2) < 2^32` it asks of the array length keeps the odd divisors in range; the source's length is far below.
- Machin.WordsNear: compares with partial sums of Machin's series; that the series converges to pi, and Blowfish itself, are not modelled.
- ChannelMerge.MergeOutcome: of member status q, a, o, h and v only; the topic is not modelled; of parameter modes other than key and limit only which are set. The burst carries neither the topic nor those modes.
- CrossedBursts.CrossedBurstsAgree: list entries are masks without setter and time.
- Convergence.ModeExact: one mode per FMODE line, by a member of the channel; +z and +E, which the peer may refuse for its own members' sake, the lists g, X and w, the other parameter modes and SAMODE are not steps of this model.
- LiveServer.Live.JoinChannel: the admission checks of a join are one parameter; invites, hooks and flood state are not modelled.
- LiveServer.Live.DropMembership: the ban a flood-kick may add is not modelled.
- LiveServer.Live.Nick: WHOWAS, the accept lists (see AcceptLists) and the announcements are separate.
- TwoServers.QuietAgrees: membership only; timestamps and modes are in Convergence. Kicks, channel renames and services commands across the link are not steps of this model.
- Convergence.PacedAgrees: not for runs in which users act while lines are in flight (create/part races can leave timestamps apart).
- NickInvariant.UidRecvKeeps: the SAVE lines sent back are not modelled there; the two-server model lets any NICK and SAVE lines be sent.
- Message.Parse: skips the tag block, which MessageTags reads.
- OutputQueue.OutputExact: limits are fixed during a run.
- Limiter.RunWindow: exact arithmetic instead of floating point, and rate and burst are the whole numbers the configuration gives.
- Uuid.Mint.NextUuid: the 64-bit counter is unbounded here.
- Watch.RunExact: WATCH and MONITOR are two copies of the same code; one model stands for both.
- Glob.GlobBytes: bytes are characters below 128.
- Sockets, polling, threads, TLS, upgrades, configuration, HTTP, LDAP, DNS, the PROXY header, help, translations, numerics and client-facing text: foreign calls or tables, or members that would only be easier.
- SILENCE and SIGNORE queries: one glob match per entry.
